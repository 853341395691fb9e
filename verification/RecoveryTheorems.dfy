/** What start-up recovery achieves, and that it is a run of the protocol machine. */
module RecoveryTheorems {
  import opened Wrappers
  import opened IdempotencyStore
  import opened DeliveryProtocol
  import opened DeliveryInvariants
  import opened DeliverySafety
  import opened DeliveryTheorems
  import opened OutboundEmitter
  import DeliveryBounds
  import opened DeliveryRuns
  import opened Recovery

  // ----- recovery runs the machine -----

  lemma UnusedEmitter(used: set<Id>) returns (em: Id)
    ensures em !in used
  {
    em := Above(used);
  }

  lemma Member<T>(s: set<T>) returns (x: T)
    requires s != {}
    ensures x in s
  {
    x :| x in s;
  }

  lemma {:induction false} Above(used: set<Id>) returns (n: Id)
    ensures forall x :: x in used ==> x < n
    decreases used
  {
    if used == {} {
      n := 0;
    } else {
      var x := Member(used);
      var m := Above(used - {x});
      n := if m > x then m else x + 1;
      forall y | y in used ensures y < n {
        assert y == x || y in used - {x};
      }
    }
  }

  lemma {:induction false} CounterOver(out: Outbox, c: Corr, ids: set<Id>) returns (n: nat)
    requires ids <= out.Keys
    ensures forall id :: id in ids && OfCorr(out, id, c) ==> out[id].event.sequence <= n
    ensures n == 0 || exists id :: OfCorr(out, id, c) && out[id].event.sequence == n
    decreases ids
  {
    if ids == {} {
      n := 0;
    } else {
      var x := Member(ids);
      var m := CounterOver(out, c, ids - {x});
      n := if OfCorr(out, x, c) && out[x].event.sequence > m then out[x].event.sequence else m;
      forall id | id in ids && OfCorr(out, id, c) ensures out[id].event.sequence <= n {
        assert id == x || id in ids - {x};
      }
    }
  }

  lemma Counter(out: Outbox, c: Corr) returns (n: nat)
    ensures ResumesAt(out, c, n)
  {
    n := CounterOver(out, c, out.Keys);
  }

  /** No payload conflict and no hook fault can stop a recovery step. */
  lemma RecoveryProceeds(s: State, step: RecoverStep)
    requires Inv(s) && RecoverEnabled(s, step) && !step.RedeliverDelivered? && !step.RedeliverThrough?
    ensures RecoverChain(s, step).Some?
    ensures step.RedeliverMissing? || step.RedeliverFailed? ==> PreparedHook(s, step) == Ok(s.rows)
  {
    RowFacts(s, step.key);
    if !step.Resume? {
      PreparedHookIdle(s, KeyCorr(s.rows, step.key), SavedResponse(s, step));
    }
    hide Inv, SaveForCorrelation;
  }

  /** The run leaves the code's stores and makes its POSTs, with the answers the adapter gave to them. */
  ghost predicate Same(s: State, steps: seq<Step>, t: State, posts: seq<Event>, q: Ran, w: World) {
    StoresOf(t) == q.stores && posts <= q.posts && Posted(s, steps) == Replied(w, q.posts, |posts|)
  }

  /** One recovery step, then everything it queued. */
  lemma RecoverStepRuns(s: State, step: RecoverStep, posts: seq<Event>, w: World) returns (steps: seq<Step>, t: State)
    requires Inv(s) && RecoverEnabled(s, step) && !step.RedeliverDelivered? && !step.RedeliverThrough?
    ensures Inv(t) && Runs(s, steps, t, w.retries) && t.open == s.open && t.reserved == s.reserved
    ensures RecoverChain(s, step).Some?
    ensures Same(s, steps, t, posts, DeliverAll(Ran(StoresOf(RecoverEffect(s, step)), posts), KeyCorr(s.rows, step.key), RecoverChain(s, step).value, w), w)
  {
    hide Inv, RecoverChain, RecoverEffect, RecoverEnabled, DeliverAll, Runs, Posted;
    RecoveryProceeds(s, step);
    OneStep(s, Recover(step), w.retries);
    RecoverFrame(s, step);
    ChainQueued(s, step);
    var mid := ApplyRecover(s, step);
    var rest: seq<Step>;
    rest, t := DeliverAllRuns(mid, step.em, Ran(StoresOf(mid), posts), w);
    steps := [Recover(step)] + rest;
    FirstRun(s, Recover(step), w.retries);
    NoPost(s, step);
    Then(s, [Recover(step)], mid, rest, t, w.retries);
  }

  lemma FirstRun(s: State, step: Step, retries: nat)
    requires Inv(s) && Enabled(s, step) && InSchedule(s, step, retries)
    ensures Runs(s, [step], Apply(s, step), retries)
  {
    OneStep(s, step, retries);
  }

  lemma NoPost(s: State, step: RecoverStep)
    requires RecoverEnabled(s, step)
    ensures Posted(s, [Recover(step)]) == []
  {
    PostedOne(s, Recover(step));
    hide RecoverEnabled;
  }

  lemma ChainQueued(s: State, step: RecoverStep)
    requires RecoverEnabled(s, step) && RecoverChain(s, step).Some?
    ensures forall x :: x in RecoverChain(s, step).value ==> x.durable && x.phase == Queued
  {
    hide ResumesAt, PendingInOrder, SaveForCorrelation;
  }

  /** The saved terminal of a correlation, as recovery finds it. */
  ghost predicate ToRedeliver(s: State, c: Corr, e: Event) {
    Known(s, c) && Redeliverable(s, s.corrs[c]) && KeyCorr(s.rows, s.corrs[c]) == c && Answered(s, c, e)
  }

  lemma RedeliverFacts(s: State, c: Corr, e: Event)
    requires Inv(s) && ToRedeliver(s, c, e)
    ensures Answer(e.kind) && e.correlation == c.id && PreparedRows(s.rows, c, e) == Ok(s.rows)
    ensures e.id in s.out ==> OfCorr(s.out, e.id, c) && s.out[e.id].event == e
  {
    RowFacts(s, s.corrs[c]);
    PreparedHookIdle(s, c, e);
    hide SaveForCorrelation;
  }

  lemma SingleDelivery(p: Ran, c: Corr, e: Event, w: World)
    ensures DeliverAll(p, c, [Task(e, true, 0, Queued)], w) == DeliverOne(p, c, e, 0, w)
  {
    hide DeliverOne;
    var q := DeliverOne(p, c, e, 0, w);
    assert [Task(e, true, 0, Queued)][1..] == [];
    assert DeliverAll(q, c, [], w) == q;
  }

  lemma MissingRuns(s: State, c: Corr, e: Event, order: seq<Id>, posts: seq<Event>, w: World) returns (steps: seq<Step>, t: State)
    requires Inv(s) && Restarted(s) && ToRedeliver(s, c, e) && e.id !in s.out && PendingInOrder(s.out, c, order)
    ensures Inv(t) && Runs(s, steps, t, w.retries) && t.open == s.open && t.reserved == s.reserved
    ensures Same(s, steps, t, posts, Redeliver(Ran(StoresOf(s), posts), c, e, order, w), w)
  {
    hide Inv, SaveForCorrelation, PreparedRows, DeliverAll, Runs, DeliverOne, RecoverEffect, RecoverChain, PendingInOrder, ResumesAt;
    RedeliverFacts(s, c, e);
    var em := UnusedEmitter(s.emitters.Keys);
    var n := Counter(s.out, c);
    var step := RedeliverMissing(s.corrs[c], em, n);
    RecoveryProceeds(s, step);
    steps, t := RecoverStepRuns(s, step, posts, w);
    SingleDelivery(Ran(StoresOf(RecoverEffect(s, step)), posts), c, e, w);
    MissingEffect(s, step);
  }

  lemma MissingEffect(s: State, step: RecoverStep)
    requires step.RedeliverMissing? && RecoverEnabled(s, step) && PreparedHook(s, step) == Ok(s.rows)
    ensures var e := SavedResponse(s, step);
      && RecoverChain(s, step) == Some([Task(e, true, 0, Queued)])
      && StoresOf(RecoverEffect(s, step)) == Inserted(StoresOf(s), s.rows, KeyCorr(s.rows, step.key), e)
  {
    hide SaveForCorrelation, ResumesAt;
  }

  lemma FailedRuns(s: State, c: Corr, e: Event, order: seq<Id>, posts: seq<Event>, w: World) returns (steps: seq<Step>, t: State)
    requires Inv(s) && Restarted(s) && ToRedeliver(s, c, e) && e.id in s.out && s.out[e.id].status == PermanentFailure
    requires PendingInOrder(s.out, c, order)
    ensures Inv(t) && Runs(s, steps, t, w.retries) && t.open == s.open && t.reserved == s.reserved
    ensures Same(s, steps, t, posts, Redeliver(Ran(StoresOf(s), posts), c, e, order, w), w)
  {
    RedeliverFacts(s, c, e);
    hide Inv, SaveForCorrelation, PreparedRows, DeliverAll, Runs, DeliverOne;
    var em := UnusedEmitter(s.emitters.Keys);
    var n := Counter(s.out, c);
    var step := RedeliverFailed(s.corrs[c], em, n);
    RecoveryProceeds(s, step);
    steps, t := RecoverStepRuns(s, step, posts, w);
    SingleDelivery(Ran(StoresOf(RecoverEffect(s, step)), posts), c, e, w);
    assert StoresOf(RecoverEffect(s, step)) == Record(StoresOf(s), e.id, Waiting, 0);
  }

  lemma WaitingRuns(s: State, c: Corr, e: Event, order: seq<Id>, posts: seq<Event>, w: World) returns (steps: seq<Step>, t: State)
    requires Inv(s) && Restarted(s) && ToRedeliver(s, c, e) && e.id in s.out && s.out[e.id].status == Waiting
    requires PendingInOrder(s.out, c, order)
    ensures Inv(t) && Runs(s, steps, t, w.retries) && t.open == s.open && t.reserved == s.reserved
    ensures Same(s, steps, t, posts, Redeliver(Ran(StoresOf(s), posts), c, e, order, w), w)
  {
    RedeliverFacts(s, c, e);
    hide Inv, PreparedRows, DeliverAll, Runs;
    var em := UnusedEmitter(s.emitters.Keys);
    var n := Counter(s.out, c);
    steps, t := RecoverStepRuns(s, RedeliverWaiting(s.corrs[c], em, n, order), posts, w);
  }

  lemma DeliveredRuns(s: State, c: Corr, e: Event, order: seq<Id>, posts: seq<Event>, w: World) returns (steps: seq<Step>, t: State)
    requires Inv(s) && Restarted(s) && ToRedeliver(s, c, e) && e.id in s.out && s.out[e.id].status == Delivered
    requires PendingInOrder(s.out, c, order)
    ensures Inv(t) && Runs(s, steps, t, w.retries) && t.open == s.open && t.reserved == s.reserved
    ensures Same(s, steps, t, posts, Redeliver(Ran(StoresOf(s), posts), c, e, order, w), w)
  {
    RedeliverFacts(s, c, e);
    var step := RedeliverDelivered(s.corrs[c]);
    OneStep(s, Recover(step), w.retries);
    DeliveryBounds.SendSucceeds(s, c, e);
    hide Inv, PreparedRows, SendCorrelation;
    steps, t := [Recover(step)], ApplyRecover(s, step);
    NoPost(s, step);
    assert Replied(w, posts, |posts|) == [];
  }

  lemma RedeliverRuns(s: State, c: Corr, e: Event, order: seq<Id>, posts: seq<Event>, w: World) returns (steps: seq<Step>, t: State)
    requires Inv(s) && Restarted(s) && ToRedeliver(s, c, e) && PendingInOrder(s.out, c, order)
    ensures Inv(t) && Runs(s, steps, t, w.retries) && t.open == s.open && t.reserved == s.reserved
    ensures Same(s, steps, t, posts, Redeliver(Ran(StoresOf(s), posts), c, e, order, w), w)
  {
    hide Inv, Redeliver, Runs;
    if e.id !in s.out {
      steps, t := MissingRuns(s, c, e, order, posts, w);
    } else {
      match s.out[e.id].status
      case Waiting => steps, t := WaitingRuns(s, c, e, order, posts, w);
      case PermanentFailure => steps, t := FailedRuns(s, c, e, order, posts, w);
      case Delivered => steps, t := DeliveredRuns(s, c, e, order, posts, w);
    }
  }

  /** Asked to redeliver for another correlation, an emitter changes neither store and POSTs nothing. */
  lemma ThroughRuns(s: State, k: MessageKey, em: Id, order: seq<Id>, posts: seq<Event>, w: World)
    requires Inv(s) && RecoverEnabled(s, RedeliverThrough(k, em)) && PendingInOrder(s.out, s.emitters[em].corr, order)
    ensures var step := RedeliverThrough(k, em);
      && Runs(s, [Recover(step)], ApplyRecover(s, step), w.retries)
      && Redeliver(Ran(StoresOf(s), posts), s.emitters[em].corr, SavedResponse(s, step), order, w)
         == Ran(StoresOf(ApplyRecover(s, step)), posts)
  {
    hide Inv, RecoverEffect, RecoverChain, DeliverAll, DeliverOne, SaveForCorrelation;
    ThroughKeepsInv(s, k, em);
    ThroughIsRefused(s, k, em);
    ResponseCorrelation(s, k);
    RowFacts(s, k);
    FirstRun(s, Recover(RedeliverThrough(k, em)), w.retries);
  }

  lemma ResumeRuns(s: State, c: Corr, order: seq<Id>, posts: seq<Event>, w: World) returns (steps: seq<Step>, t: State)
    requires Inv(s) && Known(s, c) && KeyCorr(s.rows, s.corrs[c]) == c && c !in s.open && c !in s.reserved
    requires PendingInOrder(s.out, c, order)
    ensures Inv(t) && Runs(s, steps, t, w.retries) && t.open == s.open && t.reserved == s.reserved
    ensures Same(s, steps, t, posts, DeliverAll(Ran(StoresOf(s), posts), c, ResumeTasks(s.out, order), w), w)
  {
    hide Inv, DeliverAll, Runs;
    var em := UnusedEmitter(s.emitters.Keys);
    var n := Counter(s.out, c);
    steps, t := RecoverStepRuns(s, Resume(s.corrs[c], em, n, order), posts, w);
  }

  /** A work item says what the inbound store still says. */
  ghost predicate Current(rows: Rows, item: Item) {
    Group(rows, item.corr) != {} && Found(rows, item)
  }

  ghost predicate AllCurrent(rows: Rows, items: seq<Item>) {
    Distinct(items) && forall j :: 0 <= j < |items| ==> Current(rows, items[j])
  }

  /** Nothing volatile is left: the state a restarted process finds. */
  predicate Restarted(s: State) {
    s.open == map[] && s.reserved == {}
  }

  lemma CurrentFacts(s: State, item: Item)
    requires Inv(s) && Current(s.rows, item)
    ensures Known(s, item.corr) && KeyCorr(s.rows, s.corrs[item.corr]) == item.corr
    ensures item.terminal.Some? ==> ToRedeliver(s, item.corr, item.terminal.value) && Lead(s, item.corr).delivery == Saved
    ensures item.terminal.None? ==> Lead(s, item.corr).delivery != Saved
  {
    var k := Member(Group(s.rows, item.corr));
    RowFacts(s, k);
    if item.terminal.Some? {
      var l :| SavedSibling(s.rows, l, item.corr) && s.rows[l].response == item.terminal;
      RowFacts(s, l);
    } else {
      assert !SavedSibling(s.rows, s.corrs[item.corr], item.corr);
    }
  }

  lemma ItemRuns(s: State, item: Item, order: seq<Id>, p: Ran, w: World) returns (steps: seq<Step>, t: State)
    requires Inv(s) && Current(s.rows, item) && Restarted(s) && p.stores == StoresOf(s)
    requires PendingInOrder(s.out, item.corr, order)
    ensures Inv(t) && Runs(s, steps, t, w.retries) && Restarted(t)
    ensures Same(s, steps, t, p.posts, RecoverItem(p, item, order, w), w)
  {
    CurrentFacts(s, item);
    hide Inv, Redeliver, DeliverAll, Runs;
    if item.terminal.Some? {
      steps, t := RedeliverRuns(s, item.corr, item.terminal.value, order, p.posts, w);
    } else {
      steps, t := ResumeRuns(s, item.corr, order, p.posts, w);
    }
  }

  /** The invariant gives recovery everything its methods rely on. */
  lemma InvSound(s: State)
    requires Inv(s)
    ensures Sound(StoresOf(s))
  {
    forall id | id in s.out ensures s.out[id].event.id == id {
      assert OutRowInv(s, id);
    }
    forall c ensures Sequenced(s.out, c) {
      forall i, j | OfCorr(s.out, i, c) && OfCorr(s.out, j, c) && i != j
        ensures s.out[i].event.sequence != s.out[j].event.sequence
      {
        assert Ordered(s.out[i], s.out[j]) && Ordered(s.out[j], s.out[i]);
      }
    }
    forall k | k in s.rows && s.rows[k].response.Some?
      ensures var e := s.rows[k].response.value;
        && e.correlation == s.rows[k].correlation && e.id in s.events && s.events[e.id] == KeyCorr(s.rows, k)
        && (e.id in s.out ==> OfCorr(s.out, e.id, KeyCorr(s.rows, k)))
    {
      RowFacts(s, k);
    }
  }

  lemma CurrentStartable(s: State, item: Item)
    requires Inv(s) && Current(s.rows, item)
    ensures Keyed(s.out) && Startable(s.out, item)
  {
    InvSound(s);
    if item.terminal.Some? {
      CurrentFacts(s, item);
      RedeliverFacts(s, item.corr, item.terminal.value);
    }
    hide Inv;
    assert Sequenced(StoresOf(s).out, item.corr);
  }

  lemma StillCurrent(a: Stores, b: Stores, c: Corr, item: Item)
    requires Within(a, b, c) && item.corr != c && Current(a.rows, item)
    ensures Current(b.rows, item)
  {
    forall k | k in a.rows && InGroup(a.rows, k, item.corr) ensures InGroup(b.rows, k, item.corr) && b.rows[k] == a.rows[k] {
    }
    var k := Member(Group(a.rows, item.corr));
    assert k in Group(b.rows, item.corr);
    forall k ensures SavedSibling(b.rows, k, item.corr) ==> SavedSibling(a.rows, k, item.corr) {
    }
    forall k ensures SavedSibling(a.rows, k, item.corr) ==> SavedSibling(b.rows, k, item.corr) && b.rows[k] == a.rows[k] {
    }
    hide Within, Group;
  }

  /** The first correlation is recovered by a run that leaves the others' work as listed. */
  lemma FirstItem(s: State, items: seq<Item>, p: Ran, w: World, q: Ran) returns (order: seq<Id>, steps: seq<Step>, t: State)
    requires Inv(s) && Restarted(s) && items != [] && AllCurrent(s.rows, items)
    requires p.stores == StoresOf(s) && Recovered(p, items, w, q)
    ensures PendingInOrder(s.out, items[0].corr, order)
    ensures Recovered(RecoverItem(p, items[0], order, w), items[1..], w, q)
    ensures Inv(t) && Restarted(t) && Runs(s, steps, t, w.retries)
    ensures Same(s, steps, t, p.posts, RecoverItem(p, items[0], order, w), w)
    ensures AllCurrent(t.rows, items[1..]) && Within(p.stores, StoresOf(t), items[0].corr)
    ensures StoresOf(t).out.Keys <= s.out.Keys + (if items[0].terminal.Some? then {items[0].terminal.value.id} else {})
  {
    hide Inv, RecoverItem, Within, Current, PendingInOrder, Runs, AllCurrent;
    order := FirstOrder(p, items, w, q);
    hide Recovered;
    CurrentFirst(s.rows, items);
    CurrentStartable(s, items[0]);
    ItemWithin(p, items[0], order, w);
    steps, t := ItemRuns(s, items[0], order, p, w);
    OthersCurrent(p.stores, StoresOf(t), items);
  }

  lemma FirstOrder(p: Ran, items: seq<Item>, w: World, q: Ran) returns (order: seq<Id>)
    requires items != [] && Recovered(p, items, w, q)
    ensures PendingInOrder(p.stores.out, items[0].corr, order)
    ensures Recovered(RecoverItem(p, items[0], order, w), items[1..], w, q)
  {
    hide RecoverItem;
    order :| PendingInOrder(p.stores.out, items[0].corr, order) && Recovered(RecoverItem(p, items[0], order, w), items[1..], w, q);
  }

  lemma CurrentFirst(rows: Rows, items: seq<Item>)
    requires items != [] && AllCurrent(rows, items)
    ensures Current(rows, items[0])
  {
  }

  lemma OthersCurrent(a: Stores, b: Stores, items: seq<Item>)
    requires items != [] && AllCurrent(a.rows, items) && Within(a, b, items[0].corr)
    ensures AllCurrent(b.rows, items[1..])
  {
    hide Current, Within;
    forall j | 0 <= j < |items[1..]| ensures Current(b.rows, items[1..][j]) {
      StillCurrent(a, b, items[0].corr, items[j + 1]);
    }
  }

  /** Whatever the adapter answers, start-up recovery is a run of the protocol machine. */
  lemma {:induction false} RecoveryRuns(s: State, items: seq<Item>, p: Ran, w: World, q: Ran) returns (steps: seq<Step>, t: State)
    requires Inv(s) && Restarted(s) && AllCurrent(s.rows, items)
    requires p.stores == StoresOf(s) && Recovered(p, items, w, q)
    ensures Inv(t) && Runs(s, steps, t, w.retries) && Same(s, steps, t, p.posts, q, w)
    decreases |items|
  {
    hide Inv, AllCurrent, RecoverItem, Within;
    if items == [] {
      steps, t := [], s;
      assert Replied(w, p.posts, |p.posts|) == [];
    } else {
      var order, first, mid := FirstItem(s, items, p, w, q);
      var rest: seq<Step>;
      rest, t := RecoveryRuns(mid, items[1..], RecoverItem(p, items[0], order, w), w, q);
      steps := first + rest;
      Then(s, first, mid, rest, t, w.retries);
      RepliedJoin(w, p.posts, RecoverItem(p, items[0], order, w).posts, q.posts);
    }
  }

  /** An answer acknowledged in a run is one that was POSTed in it, and the acknowledged POST carried it. */
  lemma AckedInRun(s: State, steps: seq<Step>, k: MessageKey, retries: nat)
    requires Inv(s) && Exec(s, steps, retries).Some?
    requires var t := Exec(s, steps, retries).value;
      && k in t.rows && t.rows[k].response.Some? && t.rows[k].response.value.id !in s.acked && t.rows[k].response.value.id in t.acked
    ensures (Exec(s, steps, retries).value.rows[k].response.value, Ack) in Posted(s, steps)
  {
    hide Inv, Exec;
    var t := Exec(s, steps, retries).value;
    var em, i := AckHasPost(s, steps, t.rows[k].response.value.id, retries);
    PostedAt(s, steps, i, retries);
    RunKeepsInv(s, steps[..i], retries);
    var u := Exec(s, steps[..i], retries).value;
    ExecSplit(s, steps, i, retries);
    RunKeepsInv(u, steps[i..], retries);
    RunIsFinal(u, steps[i..], retries);
    HeadFacts(u, em);
    RowFacts(t, k);
    ResponseCorrelation(t, k);
  }

  /**
   Whatever the adapter answers: a row that recovery leaves `sent`, whose response was
   not acknowledged before, has a POST of exactly that response among those recovery
   made, and the adapter acknowledged that very POST.
   */
  lemma RecoverySendsAcknowledged(s: State, items: seq<Item>, w: World, q: Ran, k: MessageKey)
    requires Reachable(s, w.retries) && Restarted(s)
    requires Listed(s.rows, s.out, items) && Recovered(Ran(StoresOf(s), []), items, w, q)
    requires k in q.stores.rows && q.stores.rows[k].delivery == Sent
    ensures q.stores.rows[k].response.Some?
    ensures q.stores.rows[k].response.value.id !in s.acked ==>
      exists n :: 0 <= n < |q.posts| && q.posts[n] == q.stores.rows[k].response.value && w.reply(q.posts[n], n) == Ack
  {
    hide Inv, Exec, Recovered, Listed, Reachable, AllCurrent, Posted;
    ReachableInv(s, w.retries);
    ListedCurrent(s, items);
    var steps, t := RecoveryRuns(s, items, Ran(StoresOf(s), []), w, q);
    RowFacts(t, k);
    var e := t.rows[k].response.value;
    if e.id !in s.acked {
      AckedInRun(s, steps, k, w.retries);
      assert (e, Ack) in Replied(w, q.posts, 0);
      var n :| 0 <= n < |Replied(w, q.posts, 0)| && Replied(w, q.posts, 0)[n] == (e, Ack);
      assert q.posts[n] == e && w.reply(q.posts[n], n) == Ack;
    }
  }

  // ----- completeness: an adapter that acknowledges -----

  ghost predicate Acks(w: World) {
    w.registered && forall e, n :: w.reply(e, n) == Ack
  }

  /** Every sibling holds `e`. */
  ghost predicate Holds(rows: Rows, c: Corr, e: Event) {
    forall k | k in rows :: InGroup(rows, k, c) ==> rows[k].delivery != Pending && rows[k].response == Some(e)
  }

  /** What one settled delivery makes of a sibling. */
  function Settled(d: Delivery, acked: bool): Delivery {
    if d == Pending then Pending else if acked then Sent else if d == Saved then Failed else d
  }

  /** All of `c` moved by one settled delivery; the rest untouched. */
  ghost predicate SettledRows(a: Rows, b: Rows, c: Corr, acked: bool) {
    && b.Keys == a.Keys
    && forall k | k in a ::
         && b[k].response == a[k].response && b[k].correlation == a[k].correlation
         && (InGroup(a, k, c) ==> b[k].delivery == Settled(a[k].delivery, acked))
  }

  lemma AcksOne(p: Ran, c: Corr, e: Event, attempt: nat, w: World)
    requires Acks(w) && (Answer(e.kind) ==> Holds(p.stores.rows, c, e))
    ensures var q := DeliverOne(p, c, e, attempt, w);
      && q.posts == (if attempt <= w.retries then p.posts + [e] else p.posts)
      && (if Answer(e.kind) then SettledRows(p.stores.rows, q.stores.rows, c, attempt <= w.retries)
          else q.stores.rows == p.stores.rows)
  {
    if Answer(e.kind) {
      forall k | k in p.stores.rows && InGroup(p.stores.rows, k, c) ensures Settleable(p.stores.rows[k], e.id) {
      }
    }
  }

  lemma {:induction false} QuietDeliveries(p: Ran, c: Corr, tasks: seq<Task>, w: World)
    requires Acks(w) && forall i :: 0 <= i < |tasks| ==> !Answer(tasks[i].event.kind)
    ensures DeliverAll(p, c, tasks, w).stores.rows == p.stores.rows
    decreases |tasks|
  {
    hide DeliverOne;
    if tasks != [] {
      AcksOne(p, c, tasks[0].event, tasks[0].attempt, w);
      QuietDeliveries(DeliverOne(p, c, tasks[0].event, tasks[0].attempt, w), c, tasks[1..], w);
    }
  }

  /** A queue that carries the answer once settles its siblings; other events change no row. */
  lemma {:induction false} AnswerDelivered(p: Ran, c: Corr, tasks: seq<Task>, e: Event, at: nat, w: World)
    requires Acks(w) && at < |tasks| && tasks[at].event == e && Answer(e.kind) && Holds(p.stores.rows, c, e)
    requires forall i :: 0 <= i < |tasks| && i != at ==> !Answer(tasks[i].event.kind)
    ensures SettledRows(p.stores.rows, DeliverAll(p, c, tasks, w).stores.rows, c, tasks[at].attempt <= w.retries)
    decreases |tasks|
  {
    hide DeliverOne, SettledRows, Holds;
    var q := DeliverOne(p, c, tasks[0].event, tasks[0].attempt, w);
    AcksOne(p, c, tasks[0].event, tasks[0].attempt, w);
    if at == 0 {
      QuietDeliveries(q, c, tasks[1..], w);
    } else {
      AnswerDelivered(q, c, tasks[1..], e, at - 1, w);
    }
  }

  /** Only queued events are POSTed. */
  lemma {:induction false} PostsAreQueued(p: Ran, c: Corr, tasks: seq<Task>, w: World)
    requires Acks(w)
    ensures var q := DeliverAll(p, c, tasks, w);
      p.posts <= q.posts && forall i | |p.posts| <= i < |q.posts| :: exists j :: 0 <= j < |tasks| && q.posts[i] == tasks[j].event
    decreases |tasks|
  {
    if tasks != [] {
      var mid := DeliverOne(p, c, tasks[0].event, tasks[0].attempt, w);
      PostedAtMost(p, c, tasks[0].event, tasks[0].attempt, w);
      hide DeliverOne;
      PostsAreQueued(mid, c, tasks[1..], w);
      var q := DeliverAll(p, c, tasks, w);
      forall i | |p.posts| <= i < |q.posts| ensures exists j :: 0 <= j < |tasks| && q.posts[i] == tasks[j].event {
        if i >= |mid.posts| {
          var j :| 0 <= j < |tasks[1..]| && q.posts[i] == tasks[1..][j].event;
          assert q.posts[i] == tasks[j + 1].event;
        } else {
          assert q.posts[i] == tasks[0].event;
        }
      }
    }
  }

  lemma PostedAtMost(p: Ran, c: Corr, e: Event, attempt: nat, w: World)
    requires Acks(w)
    ensures p.posts <= DeliverOne(p, c, e, attempt, w).posts
    ensures forall i | |p.posts| <= i < |DeliverOne(p, c, e, attempt, w).posts| :: DeliverOne(p, c, e, attempt, w).posts[i] == e
  {
    PostedAtMostSettle(p, c, e, attempt, w);
  }

  lemma {:induction false} PostedAtMostSettle(p: Ran, c: Corr, e: Event, attempt: nat, w: World)
    ensures p.posts <= Settle(p, c, e, attempt, w).posts
    ensures forall i | |p.posts| <= i < |Settle(p, c, e, attempt, w).posts| :: Settle(p, c, e, attempt, w).posts[i] == e
    decreases w.retries + 1 - attempt
  {
    hide SentRows, Record;
    if attempt <= w.retries {
      var s := if w.reply(e, |p.posts|) == Ack then Record(p.stores, e.id, Delivered, attempt + 1) else p.stores;
      PostedAtMostSettle(Ran(Record(s, e.id, StatusOf(s, e.id), attempt + 1), p.posts + [e]), c, e, attempt + 1, w);
    }
  }

  /** Where recovery leaves a sibling: only an exhausted schedule keeps a saved answer from being sent. */
  function After(row: Row, out: Outbox, retries: nat): Delivery {
    if row.response.None? then row.delivery
    else
      var id := row.response.value.id;
      if id in out && out[id].status == Waiting then Settled(row.delivery, out[id].attempts <= retries)
      else if row.delivery == Saved then Sent
      else row.delivery
  }

  /** The answer is still waiting with every configured POST already made. */
  predicate Spent(row: Row, out: Outbox, retries: nat) {
    && row.response.Some? && row.response.value.id in out
    && out[row.response.value.id].status == Waiting && out[row.response.value.id].attempts > retries
  }

  /** Every sibling ends where `After` says, its response unchanged. */
  ghost predicate Completed(a: Stores, b: Stores, c: Corr, retries: nat) {
    forall k | k in a.rows && InGroup(a.rows, k, c) ::
      k in b.rows && b.rows[k].response == a.rows[k].response && b.rows[k].delivery == After(a.rows[k], a.out, retries)
  }

  lemma GroupHolds(s: State, c: Corr, e: Event)
    requires Inv(s) && Answered(s, c, e)
    ensures Holds(s.rows, c, e)
  {
    forall k | k in s.rows && InGroup(s.rows, k, c) ensures s.rows[k].delivery != Pending && s.rows[k].response == Some(e) {
      RowFacts(s, k);
    }
  }

  lemma WaitingAnswer(s: State, c: Corr, order: seq<Id>, i: nat)
    requires Inv(s) && PendingInOrder(s.out, c, order) && i < |order| && Answer(s.out[order[i]].event.kind)
    ensures Answered(s, c, s.out[order[i]].event) && s.out[order[i]].event.id == order[i]
  {
    assert order[i] in order && OutRowInv(s, order[i]);
  }

  /** Re-driving the waiting rows of a correlation settles its answer if it is among them. */
  lemma ResumeCompletes(s: State, c: Corr, order: seq<Id>, p: Ran, w: World)
    requires Inv(s) && Acks(w) && p.stores == StoresOf(s) && PendingInOrder(s.out, c, order) && Known(s, c)
    requires Lead(s, c).delivery == Saved ==>
      Lead(s, c).response.Some? && OfCorr(s.out, Lead(s, c).response.value.id, c) && s.out[Lead(s, c).response.value.id].status == Waiting
    ensures Completed(p.stores, DeliverAll(p, c, ResumeTasks(s.out, order), w).stores, c, w.retries)
  {
    var tasks := ResumeTasks(s.out, order);
    var answer := Lead(s, c).response;
    GroupAgrees(s, c);
    forall i | 0 <= i < |tasks| && Answer(tasks[i].event.kind) ensures answer == Some(tasks[i].event) && order[i] == tasks[i].event.id {
      WaitingAnswer(s, c, order, i);
    }
    if answer.Some? && answer.value.id in order {
      var at :| 0 <= at < |order| && order[at] == answer.value.id;
      AnswerQueued(s, c, order, at);
      GroupHolds(s, c, answer.value);
      hide Inv, Holds;
      AnswerDelivered(p, c, tasks, answer.value, at, w);
      assert s.out[answer.value.id].attempts == tasks[at].attempt;
    } else {
      NothingAnswers(s, c, order);
      hide Inv;
      QuietDeliveries(p, c, tasks, w);
    }
  }

  lemma GroupAgrees(s: State, c: Corr)
    requires Inv(s)
    ensures forall k | k in s.rows && InGroup(s.rows, k, c) :: Known(s, c) && Siblings(s.rows[k], Lead(s, c)) && RowValid(s.rows[k])
  {
    forall k | k in s.rows && InGroup(s.rows, k, c) ensures Known(s, c) && Siblings(s.rows[k], Lead(s, c)) && RowValid(s.rows[k]) {
      RowFacts(s, k);
    }
  }

  lemma AnswerQueued(s: State, c: Corr, order: seq<Id>, at: nat)
    requires Inv(s) && Known(s, c) && PendingInOrder(s.out, c, order) && at < |order|
    requires Lead(s, c).response.Some? && order[at] == Lead(s, c).response.value.id
    ensures s.out[order[at]].event == Lead(s, c).response.value && Answer(Lead(s, c).response.value.kind)
    ensures OfCorr(s.out, order[at], c) && s.out[order[at]].status == Waiting
    ensures forall i :: 0 <= i < |order| && i != at ==> !Answer(s.out[order[i]].event.kind)
  {
    var e := Lead(s, c).response.value;
    assert order[at] in order;
    assert SavedInv(s, c, e) && c in s.corrs && ResponseInv(s, c, Lead(s, c));
    forall i | 0 <= i < |order| && i != at ensures !Answer(s.out[order[i]].event.kind) {
      if Answer(s.out[order[i]].event.kind) {
        WaitingAnswer(s, c, order, i);
        assert false;
      }
    }
  }

  lemma NothingAnswers(s: State, c: Corr, order: seq<Id>)
    requires Inv(s) && Known(s, c) && PendingInOrder(s.out, c, order)
    requires Lead(s, c).response.Some? ==> Lead(s, c).response.value.id !in order
    ensures forall i :: 0 <= i < |order| ==> !Answer(s.out[order[i]].event.kind)
    ensures Lead(s, c).response.Some? && Lead(s, c).response.value.id in s.out ==>
      s.out[Lead(s, c).response.value.id].status != Waiting
  {
    forall i | 0 <= i < |order| ensures !Answer(s.out[order[i]].event.kind) {
      if Answer(s.out[order[i]].event.kind) {
        WaitingAnswer(s, c, order, i);
        assert false;
      }
    }
    if Lead(s, c).response.Some? {
      assert SavedInv(s, c, Lead(s, c).response.value) && ResponseInv(s, c, Lead(s, c));
    }
  }

  lemma SendsAll(rows: Rows, c: Corr, e: Event)
    requires Holds(rows, c, e) && Answer(e.kind)
    ensures SentRows(rows, c, e).Ok? && SettledRows(rows, SentRows(rows, c, e).value, c, true)
  {
    forall k | k in rows && InGroup(rows, k, c) ensures Settleable(rows[k], e.id) {
    }
  }

  /** Redelivering a saved answer that is not waiting always sends it. */
  lemma RedeliverCompletes(s: State, c: Corr, e: Event, order: seq<Id>, p: Ran, w: World)
    requires Inv(s) && Acks(w) && p.stores == StoresOf(s) && PendingInOrder(s.out, c, order)
    requires ToRedeliver(s, c, e) && Lead(s, c).delivery == Saved
    requires e.id in s.out ==> s.out[e.id].status != Waiting
    ensures SettledRows(s.rows, Redeliver(p, c, e, order, w).stores.rows, c, true)
  {
    RedeliverFacts(s, c, e);
    GroupHolds(s, c, e);
    SendsAll(s.rows, c, e);
    hide Inv, DeliverOne, DeliverAll, SentRows, PreparedRows, SettledRows, Holds;
    if e.id !in s.out {
      AcksOne(Ran(Inserted(p.stores, s.rows, c, e), p.posts), c, e, 0, w);
    } else if s.out[e.id].status == PermanentFailure {
      AcksOne(Ran(Record(p.stores, e.id, Waiting, 0), p.posts), c, e, 0, w);
    }
  }

  lemma ItemCompletes(s: State, item: Item, order: seq<Id>, p: Ran, w: World)
    requires Inv(s) && Acks(w) && p.stores == StoresOf(s) && Current(s.rows, item) && PendingInOrder(s.out, item.corr, order)
    ensures Completed(p.stores, RecoverItem(p, item, order, w).stores, item.corr, w.retries)
  {
    CurrentFacts(s, item);
    GroupAgrees(s, item.corr);
    var c := item.corr;
    if item.terminal.None? {
      ResumeCompletes(s, c, order, p, w);
    } else {
      var e := item.terminal.value;
      RedeliverFacts(s, c, e);
      if e.id in s.out && s.out[e.id].status == Waiting {
        ResumeCompletes(s, c, order, p, w);
      } else {
        hide Inv, Redeliver;
        RedeliverCompletes(s, c, e, order, p, w);
      }
    }
  }

  // ----- completeness: what is POSTed -----

  /** `e` was stored before recovery began: an undelivered outbox row, or a saved response. */
  ghost predicate Owed(s: Stores, c: Corr, e: Event) {
    || (OfCorr(s.out, e.id, c) && s.out[e.id].event == e && s.out[e.id].status != Delivered)
    || (exists k :: SavedSibling(s.rows, k, c) && s.rows[k].response == Some(e))
  }

  ghost predicate PostsOwed(p: Ran, q: Ran, c: Corr) {
    p.posts <= q.posts && forall i | |p.posts| <= i < |q.posts| :: Owed(p.stores, c, q.posts[i])
  }

  lemma ResumePosts(p: Ran, c: Corr, order: seq<Id>, w: World)
    requires Acks(w) && Keyed(p.stores.out) && PendingInOrder(p.stores.out, c, order)
    ensures PostsOwed(p, DeliverAll(p, c, ResumeTasks(p.stores.out, order), w), c)
  {
    var tasks := ResumeTasks(p.stores.out, order);
    PostsAreQueued(p, c, tasks, w);
    forall j | 0 <= j < |tasks| ensures Owed(p.stores, c, tasks[j].event) {
      assert order[j] in order;
      assert tasks[j].event == p.stores.out[order[j]].event && p.stores.out[order[j]].event.id == order[j];
    }
  }

  lemma ItemPosts(p: Ran, item: Item, order: seq<Id>, w: World)
    requires Acks(w) && Keyed(p.stores.out) && PendingInOrder(p.stores.out, item.corr, order) && Found(p.stores.rows, item)
    ensures PostsOwed(p, RecoverItem(p, item, order, w), item.corr)
  {
    ResumePosts(p, item.corr, order, w);
    if item.terminal.Some? {
      var c, e := item.corr, item.terminal.value;
      assert Owed(p.stores, c, e);
      var prepared := PreparedRows(p.stores.rows, c, e);
      if prepared.Ok? {
        PostedAtMost(Ran(Inserted(p.stores, prepared.value, c, e), p.posts), c, e, 0, w);
        PostedAtMost(Ran(Record(p.stores.(rows := prepared.value), e.id, Waiting, 0), p.posts), c, e, 0, w);
      }
      hide DeliverOne, DeliverAll, SentRows, PreparedRows, Owed, Found;
    }
  }

  // ----- the whole of recovery -----

  /** What recovering `items` makes of the stores, seen from where it started. */
  ghost predicate Outcome(p: Ran, q: Ran, items: seq<Item>, retries: nat) {
    && q.stores.rows.Keys == p.stores.rows.Keys
    && (forall k | k in p.stores.rows ::
          && q.stores.rows[k].response == p.stores.rows[k].response
          && q.stores.rows[k].delivery ==
               (if Treats(items, KeyCorr(p.stores.rows, k)) then After(p.stores.rows[k], p.stores.out, retries)
                else p.stores.rows[k].delivery))
    && p.posts <= q.posts
    && (forall i | |p.posts| <= i < |q.posts| :: OwedByOne(p.stores, items, q.posts[i]))
  }

  ghost predicate OwedByOne(s: Stores, items: seq<Item>, e: Event) {
    exists c :: Treats(items, c) && Owed(s, c, e)
  }

  ghost predicate Treats(items: seq<Item>, c: Corr) {
    exists j :: 0 <= j < |items| && items[j].corr == c
  }

  /** One correlation's outcome, then that of the others, which it does not disturb. */
  lemma OutcomeCons(p: Ran, mid: Ran, q: Ran, items: seq<Item>, retries: nat)
    requires items != [] && Distinct(items)
    requires Within(p.stores, mid.stores, items[0].corr)
    requires Completed(p.stores, mid.stores, items[0].corr, retries) && PostsOwed(p, mid, items[0].corr)
    requires Outcome(mid, q, items[1..], retries)
    requires forall k | k in p.stores.rows && p.stores.rows[k].response.Some? && p.stores.rows[k].response.value.id in mid.stores.out ::
      OfCorr(mid.stores.out, p.stores.rows[k].response.value.id, KeyCorr(p.stores.rows, k))
    ensures Outcome(p, q, items, retries)
  {
    hide OwedByOne, After;
    forall k | k in p.stores.rows
      ensures q.stores.rows[k].response == p.stores.rows[k].response
      ensures q.stores.rows[k].delivery ==
               (if Treats(items, KeyCorr(p.stores.rows, k)) then After(p.stores.rows[k], p.stores.out, retries)
                else p.stores.rows[k].delivery)
    {
      RowOutcome(p, mid, q, items, retries, k);
    }
    forall i | |p.posts| <= i < |q.posts| ensures OwedByOne(p.stores, items, q.posts[i]) {
      PostOutcome(p, mid, q, items, retries, i);
    }
  }

  lemma TreatsCons(items: seq<Item>, c: Corr)
    requires items != [] && Distinct(items)
    ensures Treats(items, c) <==> c == items[0].corr || Treats(items[1..], c)
    ensures !Treats(items[1..], items[0].corr)
  {
    if Treats(items, c) {
      var j :| 0 <= j < |items| && items[j].corr == c;
      assert j > 0 ==> items[1..][j - 1].corr == c;
    }
    if Treats(items[1..], c) {
      var j :| 0 <= j < |items[1..]| && items[1..][j].corr == c;
      assert items[j + 1].corr == c;
    }
  }

  lemma RowOutcome(p: Ran, mid: Ran, q: Ran, items: seq<Item>, retries: nat, k: MessageKey)
    requires items != [] && Distinct(items) && k in p.stores.rows
    requires Within(p.stores, mid.stores, items[0].corr) && Completed(p.stores, mid.stores, items[0].corr, retries)
    requires Outcome(mid, q, items[1..], retries)
    requires p.stores.rows[k].response.Some? && p.stores.rows[k].response.value.id in mid.stores.out ==>
      OfCorr(mid.stores.out, p.stores.rows[k].response.value.id, KeyCorr(p.stores.rows, k))
    ensures k in q.stores.rows && q.stores.rows[k].response == p.stores.rows[k].response
    ensures q.stores.rows[k].delivery ==
             (if Treats(items, KeyCorr(p.stores.rows, k)) then After(p.stores.rows[k], p.stores.out, retries)
              else p.stores.rows[k].delivery)
  {
    var c := KeyCorr(p.stores.rows, k);
    TreatsCons(items, c);
    TreatsCons(items, items[0].corr);
    hide Treats, Owed;
    if c == items[0].corr {
      assert InGroup(p.stores.rows, k, c);
    } else {
      assert !InGroup(p.stores.rows, k, items[0].corr);
      assert mid.stores.rows[k] == p.stores.rows[k];
    }
  }

  lemma PostOutcome(p: Ran, mid: Ran, q: Ran, items: seq<Item>, retries: nat, i: nat)
    requires items != [] && Distinct(items) && |p.posts| <= i < |q.posts|
    requires Within(p.stores, mid.stores, items[0].corr) && PostsOwed(p, mid, items[0].corr)
    requires Outcome(mid, q, items[1..], retries)
    ensures OwedByOne(p.stores, items, q.posts[i])
  {
    hide Within, After;
    if i < |mid.posts| {
      TreatsCons(items, items[0].corr);
      assert q.posts[i] == mid.posts[i];
      assert Owed(p.stores, items[0].corr, q.posts[i]);
    } else {
      assert OwedByOne(mid.stores, items[1..], q.posts[i]);
      var c :| Treats(items[1..], c) && Owed(mid.stores, c, q.posts[i]);
      TreatsCons(items, c);
      TreatsCons(items, items[0].corr);
      StillOwed(p.stores, mid.stores, items[0].corr, c, q.posts[i]);
    }
  }

  lemma StillOwed(a: Stores, b: Stores, other: Corr, c: Corr, e: Event)
    requires Within(a, b, other) && c != other && Owed(b, c, e)
    ensures Owed(a, c, e)
  {
    if !(OfCorr(b.out, e.id, c) && b.out[e.id].event == e && b.out[e.id].status != Delivered) {
      var k :| SavedSibling(b.rows, k, c) && b.rows[k].response == Some(e);
      assert SavedSibling(a.rows, k, c) && a.rows[k].response == Some(e);
    }
  }

  lemma ResponseIds(s: State, t: State)
    requires Inv(s) && Inv(t) && t.rows.Keys == s.rows.Keys
    requires forall k | k in s.rows :: t.rows[k].response == s.rows[k].response && t.rows[k].correlation == s.rows[k].correlation
    ensures forall k | k in s.rows && s.rows[k].response.Some? && s.rows[k].response.value.id in t.out ::
      OfCorr(t.out, s.rows[k].response.value.id, KeyCorr(s.rows, k))
  {
    hide Inv, OfCorr;
    forall k | k in s.rows && s.rows[k].response.Some? && s.rows[k].response.value.id in t.out
      ensures OfCorr(t.out, s.rows[k].response.value.id, KeyCorr(s.rows, k))
    {
      Filed(t, k);
    }
  }

  lemma Filed(s: State, k: MessageKey)
    requires Inv(s) && k in s.rows && s.rows[k].response.Some? && s.rows[k].response.value.id in s.out
    ensures OfCorr(s.out, s.rows[k].response.value.id, KeyCorr(s.rows, k))
  {
    RowFacts(s, k);
    hide Inv;
  }

  lemma {:induction false} RecoveryOutcome(s: State, items: seq<Item>, p: Ran, w: World, q: Ran)
    requires Inv(s) && Restarted(s) && AllCurrent(s.rows, items) && Acks(w)
    requires p.stores == StoresOf(s) && Recovered(p, items, w, q)
    ensures Outcome(p, q, items, w.retries)
    decreases |items|
  {
    hide Inv, AllCurrent, RecoverItem, Within, After, Completed, PostsOwed, Owed, Current;
    if items == [] {
      assert forall c :: !Treats(items, c);
    } else {
      var order, first, t := FirstItem(s, items, p, w, q);
      var mid := RecoverItem(p, items[0], order, w);
      RecoveryOutcome(t, items[1..], mid, w, q);
      hide Outcome, Recovered;
      FirstOutcome(s, items, order, p, w);
      WithinKeepsResponses(p.stores, mid.stores, items[0].corr, w.retries);
      ResponseIds(s, t);
      DistinctItems(s.rows, items);
      OutcomeCons(p, mid, q, items, w.retries);
    }
  }

  lemma DistinctItems(rows: Rows, items: seq<Item>)
    requires AllCurrent(rows, items)
    ensures Distinct(items)
  {
  }

  lemma FirstOutcome(s: State, items: seq<Item>, order: seq<Id>, p: Ran, w: World)
    requires Inv(s) && items != [] && AllCurrent(s.rows, items) && Acks(w) && p.stores == StoresOf(s)
    requires PendingInOrder(s.out, items[0].corr, order)
    ensures Completed(p.stores, RecoverItem(p, items[0], order, w).stores, items[0].corr, w.retries)
    ensures PostsOwed(p, RecoverItem(p, items[0], order, w), items[0].corr)
  {
    hide Inv, RecoverItem, Completed, PostsOwed, PendingInOrder, Found;
    assert Current(s.rows, items[0]);
    CurrentStartable(s, items[0]);
    ItemCompletes(s, items[0], order, p, w);
    ItemPosts(p, items[0], order, w);
  }

  lemma WithinKeepsResponses(a: Stores, b: Stores, c: Corr, retries: nat)
    requires Within(a, b, c) && Completed(a, b, c, retries)
    ensures b.rows.Keys == a.rows.Keys
    ensures forall k | k in a.rows :: b.rows[k].response == a.rows[k].response && b.rows[k].correlation == a.rows[k].correlation
    ensures forall id | id in a.out :: id in b.out
  {
  }

  /** A correlation recovery does not list has nothing saved and nothing waiting. */
  lemma UnlistedRest(s: State, items: seq<Item>, k: MessageKey, retries: nat)
    requires Inv(s) && Listed(s.rows, s.out, items) && k in s.rows && !Treats(items, KeyCorr(s.rows, k))
    ensures After(s.rows[k], s.out, retries) == s.rows[k].delivery && s.rows[k].delivery != Saved
  {
    var c := KeyCorr(s.rows, k);
    assert k in Group(s.rows, c);
    assert !Recoverable(s.rows, s.out, c);
    RowFacts(s, k);
    if s.rows[k].response.Some? && s.rows[k].response.value.id in s.out {
      Filed(s, k);
    }
  }

  lemma ListedCurrent(s: State, items: seq<Item>)
    requires Listed(s.rows, s.out, items)
    ensures AllCurrent(s.rows, items)
  {
    hide Found;
    forall j | 0 <= j < |items| ensures Current(s.rows, items[j]) {
      assert Recoverable(s.rows, s.out, items[j].corr);
    }
  }

  ghost predicate TerminalOf(items: seq<Item>, id: Id) {
    exists j :: 0 <= j < |items| && items[j].terminal.Some? && items[j].terminal.value.id == id
  }

  lemma TerminalOfRest(items: seq<Item>, id: Id)
    requires items != [] && TerminalOf(items[1..], id)
    ensures TerminalOf(items, id)
  {
    var j :| 0 <= j < |items[1..]| && items[1..][j].terminal.Some? && items[1..][j].terminal.value.id == id;
    assert items[j + 1].terminal.Some?;
  }

  lemma ItemKeys(p: Ran, item: Item, order: seq<Id>, w: World)
    requires PendingInOrder(p.stores.out, item.corr, order)
    ensures RecoverItem(p, item, order, w).stores.out.Keys
         <= p.stores.out.Keys + (if item.terminal.Some? then {item.terminal.value.id} else {})
  {
    hide Redeliver, DeliverAll;
  }

  /** Recovery adds no outbox row but those of saved terminals. */
  lemma {:induction false} RecoveredKeys(p: Ran, items: seq<Item>, w: World, q: Ran)
    requires Recovered(p, items, w, q)
    ensures forall id | id in q.stores.out :: id in p.stores.out || TerminalOf(items, id)
    decreases |items|
  {
    if items != [] {
      hide RecoverItem, PendingInOrder;
      var order := FirstOrder(p, items, w, q);
      var mid := RecoverItem(p, items[0], order, w);
      ItemKeys(p, items[0], order, w);
      RecoveredKeys(mid, items[1..], w, q);
      forall id | id in q.stores.out && id !in p.stores.out ensures TerminalOf(items, id) {
        if id !in mid.stores.out {
          TerminalOfRest(items, id);
        }
      }
    }
  }

  predicate SavedAs(rows: Rows, k: MessageKey, id: Id) {
    k in rows && rows[k].delivery == Saved && rows[k].response.Some? && rows[k].response.value.id == id
  }

  lemma NoNewEvent(s: Stores, items: seq<Item>, w: World, q: Ran)
    requires Listed(s.rows, s.out, items) && Recovered(Ran(s, []), items, w, q)
    ensures forall id | id in q.stores.out && id !in s.out :: exists k :: SavedAs(s.rows, k, id)
  {
    RecoveredKeys(Ran(s, []), items, w, q);
    hide Recovered;
    forall id | id in q.stores.out && id !in s.out ensures exists k :: SavedAs(s.rows, k, id) {
      assert TerminalOf(items, id);
      var j :| 0 <= j < |items| && items[j].terminal.Some? && items[j].terminal.value.id == id;
      assert Found(s.rows, items[j]);
      var k :| SavedSibling(s.rows, k, items[j].corr) && s.rows[k].response == items[j].terminal;
      assert SavedAs(s.rows, k, id);
    }
  }

  /**
   Recovery after a crash at any point, with an adapter that acknowledges: every
   saved answer is sent, unless its outbox row is still waiting with no attempt
   left in the schedule, in which case it is recorded as failed. Every row keeps
   its response, only payloads stored before recovery are POSTed, no outbox row is
   added but those of saved answers, and the whole recovery is a run of the
   protocol machine, so every run-level theorem holds of what it leaves behind.
   */
  lemma RecoveryCompletes(s: State, items: seq<Item>, w: World, q: Ran) returns (steps: seq<Step>, t: State)
    requires Reachable(s, w.retries) && Restarted(s) && Acks(w)
    requires Listed(s.rows, s.out, items) && Recovered(Ran(StoresOf(s), []), items, w, q)
    ensures q.stores.rows.Keys == s.rows.Keys
    ensures forall k | k in s.rows ::
      q.stores.rows[k].response == s.rows[k].response && q.stores.rows[k].delivery == After(s.rows[k], s.out, w.retries)
    ensures forall k | k in s.rows && s.rows[k].delivery == Saved ::
      q.stores.rows[k].delivery == (if Spent(s.rows[k], s.out, w.retries) then Failed else Sent)
    ensures forall e | e in q.posts :: exists c :: Owed(StoresOf(s), c, e)
    ensures forall id | id in q.stores.out && id !in s.out :: exists k :: SavedAs(s.rows, k, id)
    ensures Exec(s, steps, w.retries) == Some(t) && StoresOf(t) == q.stores && Posted(s, steps) == Replied(w, q.posts, 0)
  {
    hide Recovered, Listed, Exec, Inv, Outcome, AllCurrent, SavedAs, Owed, Reachable, Spent, After, Acks;
    NoNewEvent(StoresOf(s), items, w, q);
    ReachableInv(s, w.retries);
    ListedCurrent(s, items);
    var p := Ran(StoresOf(s), []);
    steps, t := RecoveryRuns(s, items, p, w, q);
    RecoveryOutcome(s, items, p, w, q);
    RowsCompleted(s, items, q, w.retries);
    PostsCompleted(s, items, q, w.retries);
  }

  lemma RowsCompleted(s: State, items: seq<Item>, q: Ran, retries: nat)
    requires Inv(s) && Listed(s.rows, s.out, items) && Outcome(Ran(StoresOf(s), []), q, items, retries)
    ensures q.stores.rows.Keys == s.rows.Keys
    ensures forall k | k in s.rows ::
      && q.stores.rows[k].response == s.rows[k].response && q.stores.rows[k].delivery == After(s.rows[k], s.out, retries)
      && (s.rows[k].delivery == Saved ==> q.stores.rows[k].delivery == (if Spent(s.rows[k], s.out, retries) then Failed else Sent))
  {
    hide Inv, Listed, Owed, Treats;
    forall k | k in s.rows
      ensures q.stores.rows[k].delivery == After(s.rows[k], s.out, retries)
      ensures s.rows[k].delivery == Saved ==> s.rows[k].response.Some?
    {
      RowFacts(s, k);
      if !Treats(items, KeyCorr(s.rows, k)) {
        UnlistedRest(s, items, k, retries);
      }
    }
  }

  lemma PostsCompleted(s: State, items: seq<Item>, q: Ran, retries: nat)
    requires Outcome(Ran(StoresOf(s), []), q, items, retries)
    ensures forall e | e in q.posts :: exists c :: Owed(StoresOf(s), c, e)
  {
    hide Owed, After;
    forall e | e in q.posts ensures exists c :: Owed(StoresOf(s), c, e) {
      var i :| 0 <= i < |q.posts| && q.posts[i] == e;
      assert OwedByOne(StoresOf(s), items, q.posts[i]);
    }
  }
}
