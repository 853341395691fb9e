/** What whole runs of the cron loop fire (packages/core/src/cron-scheduler.ts). */
module CronTheorems {
  import opened Wrappers
  import opened CronExpression
  import opened NextRun
  import opened CronScheduler

  // ----- orbits -----

  /** The n-th match after an anchor. */
  function Orbit(next: int -> int, anchor: int, n: nat): int {
    if n == 0 then anchor else next(Orbit(next, anchor, n - 1))
  }

  /** Matches 1 to `m`. */
  function OrbitPrefix(next: int -> int, anchor: int, m: nat): (s: seq<int>)
    ensures |s| == m
  {
    seq(m, i requires 0 <= i < m => Orbit(next, anchor, i + 1))
  }

  lemma {:induction false} OrbitAscends(next: int -> int, anchor: int, i: nat, j: nat)
    requires Advancing(next) && i < j
    ensures Orbit(next, anchor, i) < Orbit(next, anchor, j)
    decreases j
  {
    if i < j - 1 {
      OrbitAscends(next, anchor, i, j - 1);
    }
  }

  // ----- one job's fires -----

  function FiresOf(log: seq<Run>, id: Id): seq<int> {
    if log == [] then []
    else
      var last := log[|log| - 1];
      var before := FiresOf(log[..|log| - 1], id);
      if last.Fired? && last.job == id then before + [last.epoch] else before
  }

  lemma FiresOfAppend(log: seq<Run>, run: Run, id: Id)
    ensures FiresOf(log + [run], id) == (if run.Fired? && run.job == id then FiresOf(log, id) + [run.epoch] else FiresOf(log, id))
  {
    assert (log + [run])[..|log|] == log;
  }

  /**
   `fires` walks the orbit to match `pos`: each fire is the match after the one
   before it, or that one again.
   */
  predicate Walk(next: int -> int, anchor: int, fires: seq<int>, pos: nat) {
    if fires == [] then pos == 0
    else
      var before := fires[..|fires| - 1];
      && pos >= 1 && fires[|fires| - 1] == Orbit(next, anchor, pos)
      && (Walk(next, anchor, before, pos - 1) || Walk(next, anchor, before, pos))
  }

  ghost predicate OnOrbit(next: int -> int, anchor: int, pos: nat, f: int) {
    exists i :: 1 <= i <= pos && f == Orbit(next, anchor, i)
  }

  /** A walk skips nothing: it holds every match up to where it stands, and nothing else. */
  lemma {:induction false} WalkSkipsNothing(next: int -> int, anchor: int, fires: seq<int>, pos: nat)
    requires Walk(next, anchor, fires, pos)
    ensures forall i :: 1 <= i <= pos ==> Orbit(next, anchor, i) in fires
    ensures forall j | 0 <= j < |fires| :: OnOrbit(next, anchor, pos, fires[j])
    decreases |fires|
  {
    if fires != [] {
      var before := fires[..|fires| - 1];
      assert fires == before + [fires[|fires| - 1]];
      if Walk(next, anchor, before, pos) {
        WalkSkipsNothing(next, anchor, before, pos);
      } else {
        WalkSkipsNothing(next, anchor, before, pos - 1);
      }
      forall j | 0 <= j < |fires| ensures OnOrbit(next, anchor, pos, fires[j]) {
        if j < |before| {
          assert fires[j] == before[j];
        }
      }
    }
  }

  /** Job `job`, anchored at `anchor`: match `m` is recorded, and fired matches stand at `m`, or one ahead after a tick cut short. */
  ghost predicate Tracked(w: World, job: Job, anchor: int, m: nat, pos: nat) {
    && job.id in w.lastRun && w.lastRun[job.id] == Orbit(job.next, anchor, m)
    && m <= pos <= m + 1 && Walk(job.next, anchor, FiresOf(w.log, job.id), pos)
  }

  /** Every match up to `m` fired exactly once, in order, and nothing else did. */
  ghost predicate Exact(w: World, job: Job, anchor: int, m: nat) {
    && job.id in w.lastRun && w.lastRun[job.id] == Orbit(job.next, anchor, m)
    && FiresOf(w.log, job.id) == OrbitPrefix(job.next, anchor, m)
  }

  lemma {:induction false} DeadStays(w: World, id: Id, fires: seq<int>, at: int)
    requires w.dead
    ensures FireAll(w, id, fires, at) == w
    decreases |fires|
  {
    if fires != [] {
      DeadStays(w, id, fires[1..], at);
    }
  }

  // ----- catch-up fires -----

  lemma WalkSteps(next: int -> int, anchor: int, fires: seq<int>, m: nat, pos: nat)
    requires Walk(next, anchor, fires, pos) && m <= pos <= m + 1
    ensures Walk(next, anchor, fires + [Orbit(next, anchor, m + 1)], m + 1)
  {
    hide Orbit;
    assert (fires + [Orbit(next, anchor, m + 1)])[..|fires|] == fires;
  }

  /** One fire, wherever the tick is cut short. */
  lemma FireTracks(w: World, job: Job, anchor: int, m: nat, pos: nat, at: int) returns (m': nat, pos': nat)
    requires Tracked(w, job, anchor, m, pos)
    ensures var t := FireOne(w, job.id, Orbit(job.next, anchor, m + 1), at);
      && Tracked(t, job, anchor, m', pos') && m <= m' && (!t.dead ==> m' == m + 1 == pos')
  {
    hide Walk, FiresOf, Orbit;
    var epoch := Orbit(job.next, anchor, m + 1);
    var run := Fired(job.id, epoch, at);
    FiresOfAppend(w.log, run, job.id);
    WalkSteps(job.next, anchor, FiresOf(w.log, job.id), m, pos);
    var mid := Execute(w, run);
    var t := WriteLastRun(mid, job.id, epoch);
    m' := if t.dead then m else m + 1;
    pos' := if mid.dead then pos else m + 1;
  }

  lemma {:induction false} CatchUpTracks(w: World, job: Job, anchor: int, m: nat, pos: nat, now: int, cap: nat)
    returns (m': nat, pos': nat)
    requires Tracked(w, job, anchor, m, pos)
    ensures m <= m' && Tracked(FireAll(w, job.id, CatchUpFires(job.next, w.lastRun[job.id], now, cap), now), job, anchor, m', pos')
    decreases cap
  {
    hide Walk, FiresOf, FireOne;
    var base := w.lastRun[job.id];
    var fires := CatchUpFires(job.next, base, now, cap);
    if fires == [] {
      m', pos' := m, pos;
    } else {
      var t := FireOne(w, job.id, fires[0], now);
      var p;
      m', p := FireTracks(w, job, anchor, m, pos, now);
      assert fires[1..] == CatchUpFires(job.next, fires[0], now, cap - 1);
      if t.dead {
        DeadStays(t, job.id, fires[1..], now);
        pos' := p;
      } else {
        m', pos' := CatchUpTracks(t, job, anchor, m', p, now, cap - 1);
      }
    }
  }

  /** While the process lives, each fire extends the prefix by one. */
  lemma FireExact(w: World, job: Job, anchor: int, m: nat, at: int)
    requires Exact(w, job, anchor, m)
    ensures var t := FireOne(w, job.id, Orbit(job.next, anchor, m + 1), at);
      !t.dead ==> Exact(t, job, anchor, m + 1)
  {
    var epoch := Orbit(job.next, anchor, m + 1);
    FiresOfAppend(w.log, Fired(job.id, epoch, at), job.id);
    assert OrbitPrefix(job.next, anchor, m + 1) == OrbitPrefix(job.next, anchor, m) + [epoch];
  }

  /** A batch ends at the cap, or where the next match lies ahead of the clock. */
  lemma {:induction false} CatchUpExact(w: World, job: Job, anchor: int, m: nat, now: int, cap: nat) returns (m': nat)
    requires Exact(w, job, anchor, m)
    ensures var t := FireAll(w, job.id, CatchUpFires(job.next, w.lastRun[job.id], now, cap), now);
      && m <= m' <= m + cap
      && (!t.dead ==> Exact(t, job, anchor, m') && (m' == m + cap || Orbit(job.next, anchor, m' + 1) > now))
    decreases cap
  {
    var fires := CatchUpFires(job.next, w.lastRun[job.id], now, cap);
    if fires == [] {
      m' := m;
    } else {
      var t := FireOne(w, job.id, fires[0], now);
      FireExact(w, job, anchor, m, now);
      assert fires[1..] == CatchUpFires(job.next, fires[0], now, cap - 1);
      if t.dead {
        DeadStays(t, job.id, fires[1..], now);
        m' := m;
      } else {
        m' := CatchUpExact(t, job, anchor, m + 1, now, cap - 1);
      }
    }
  }

  // ----- other jobs, boot runs -----

  /** `a` and `b` show job `id` the same record and the same fires. */
  ghost predicate SameJob(a: World, b: World, id: Id) {
    && (id in b.lastRun <==> id in a.lastRun) && (id in a.lastRun ==> b.lastRun[id] == a.lastRun[id])
    && FiresOf(b.log, id) == FiresOf(a.log, id)
  }

  lemma {:induction false} OthersFire(w: World, other: Id, fires: seq<int>, at: int, id: Id)
    requires other != id
    ensures SameJob(w, FireAll(w, other, fires, at), id) && (w.dead ==> FireAll(w, other, fires, at).dead)
    decreases |fires|
  {
    if fires != [] {
      FiresOfAppend(w.log, Fired(other, fires[0], at), id);
      OthersFire(FireOne(w, other, fires[0], at), other, fires[1..], at, id);
    }
  }

  lemma OthersVisit(w: World, job: Job, now: int, id: Id)
    requires Advancing(job.next) && job.id != id
    ensures SameJob(w, Visit(w, job, now), id) && (w.dead ==> Visit(w, job, now).dead)
  {
    if job.id in w.lastRun {
      OthersFire(w, job.id, DueFires(job, w.lastRun[job.id], now), now, id);
    }
  }

  /** Boot runs fire no match and leave every anchor where it was. */
  lemma {:induction false} BootKeepsAnchors(w: World, jobs: seq<Job>, now: int, id: Id)
    ensures BootAll(w, jobs, now).lastRun == w.lastRun && SameJob(w, BootAll(w, jobs, now), id)
    ensures w.dead ==> BootAll(w, jobs, now) == w
    decreases |jobs|
  {
    if jobs != [] {
      var mid := BootAll(w, jobs[..|jobs| - 1], now);
      BootKeepsAnchors(w, jobs[..|jobs| - 1], now, id);
      FiresOfAppend(mid.log, BootRun(jobs[|jobs| - 1].id, now), id);
    }
  }

  function BootsOf(log: seq<Run>, id: Id): nat {
    if log == [] then 0
    else BootsOf(log[..|log| - 1], id) + (if log[|log| - 1] == BootRun(id, log[|log| - 1].at) then 1 else 0)
  }

  lemma BootsOfAppend(log: seq<Run>, run: Run, id: Id)
    ensures BootsOf(log + [run], id) == BootsOf(log, id) + (if run == BootRun(id, run.at) then 1 else 0)
  {
    assert (log + [run])[..|log|] == log;
  }

  ghost predicate AsksToBoot(jobs: seq<Job>, id: Id) {
    exists j :: 0 <= j < |jobs| && jobs[j].id == id && jobs[j].runAtBoot
  }

  /** A boot pass runs a job at most once, and only if it asks to. */
  lemma {:induction false} BootPass(w: World, jobs: seq<Job>, now: int, id: Id)
    ensures var t := BootAll(w, jobs, now);
      && w.bootRan <= t.bootRan
      && BootsOf(t.log, id) <= BootsOf(w.log, id) + (if id in t.bootRan && id !in w.bootRan then 1 else 0)
      && (id in t.bootRan && id !in w.bootRan ==> AsksToBoot(jobs, id))
    decreases |jobs|
  {
    hide BootsOf;
    if jobs != [] {
      var last := jobs[|jobs| - 1];
      var mid := BootAll(w, jobs[..|jobs| - 1], now);
      BootPass(w, jobs[..|jobs| - 1], now, id);
      BootsOfAppend(mid.log, BootRun(last.id, now), id);
      assert forall j :: 0 <= j < |jobs| - 1 ==> jobs[..|jobs| - 1][j] == jobs[j];
    }
  }

  // ----- whole runs -----

  /** After a tick cut short, `Restart` is a new process and `Retry` the same one a minute later. */
  datatype Step = Tick(now: int) | Restart(fuel: nat) | Retry(fuel: nat)

  ghost function StepWorld(w: World, jobs: seq<Job>, step: Step): World
    requires CronScheduler.Sound(jobs)
  {
    match step
    case Tick(now) => Ticked(w, jobs, now)
    case Restart(fuel) => w.(bootRan := {}, fuel := fuel, dead := false)
    case Retry(fuel) => w.(fuel := fuel, dead := false)
  }

  ghost function RunWorld(w: World, jobs: seq<Job>, steps: seq<Step>): World
    requires CronScheduler.Sound(jobs)
    decreases |steps|
  {
    if steps == [] then w else RunWorld(StepWorld(w, jobs, steps[0]), jobs, steps[1..])
  }

  lemma {:induction false} FiringBootsNone(w: World, other: Id, fires: seq<int>, at: int, id: Id)
    ensures var t := FireAll(w, other, fires, at); t.bootRan == w.bootRan && BootsOf(t.log, id) == BootsOf(w.log, id)
    decreases |fires|
  {
    hide BootsOf;
    if fires != [] {
      BootsOfAppend(w.log, Fired(other, fires[0], at), id);
      FiringBootsNone(FireOne(w, other, fires[0], at), other, fires[1..], at, id);
    }
  }

  lemma {:induction false} VisitsBootNone(w: World, jobs: seq<Job>, now: int, id: Id)
    requires forall j :: 0 <= j < |jobs| ==> Advancing(jobs[j].next)
    ensures var t := VisitAll(w, jobs, now); t.bootRan == w.bootRan && BootsOf(t.log, id) == BootsOf(w.log, id)
    decreases |jobs|
  {
    hide BootsOf, DueFires;
    if jobs != [] {
      var mid, job := VisitAll(w, jobs[..|jobs| - 1], now), jobs[|jobs| - 1];
      VisitsBootNone(w, jobs[..|jobs| - 1], now, id);
      if job.id in mid.lastRun {
        FiringBootsNone(mid, job.id, DueFires(job, mid.lastRun[job.id], now), now, id);
      }
    }
  }

  function Restarts(steps: seq<Step>): nat {
    if steps == [] then 0 else (if steps[0].Restart? then 1 else 0) + Restarts(steps[1..])
  }

  /**
   Over any run a job boots at most once in each process, whichever of its ticks fail
   and are tried again: once more than there are restarts, one less if the process had booted it already, and only if it asks to.
   */
  lemma {:induction false} BootsOnce(w: World, jobs: seq<Job>, steps: seq<Step>, id: Id)
    requires CronScheduler.Sound(jobs)
    ensures var t := RunWorld(w, jobs, steps);
      && BootsOf(t.log, id) <= BootsOf(w.log, id) + Restarts(steps) + (if id in w.bootRan then 0 else 1)
      && (BootsOf(t.log, id) > BootsOf(w.log, id) ==> AsksToBoot(jobs, id))
    decreases |steps|
  {
    hide BootsOf, BootAll, VisitAll, AsksToBoot;
    if steps != [] {
      if steps[0].Tick? {
        BootPass(w, jobs, steps[0].now, id);
        VisitsBootNone(BootAll(w, jobs, steps[0].now), jobs, steps[0].now, id);
      }
      BootsOnce(StepWorld(w, jobs, steps[0]), jobs, steps[1..], id);
    }
  }

  /** The job's own visit, with the other jobs' visits before and after it. */
  lemma {:induction false} OthersVisitAll(w: World, jobs: seq<Job>, now: int, id: Id)
    requires forall j :: 0 <= j < |jobs| ==> Advancing(jobs[j].next) && jobs[j].id != id
    ensures SameJob(w, VisitAll(w, jobs, now), id) && (w.dead ==> VisitAll(w, jobs, now).dead)
    decreases |jobs|
  {
    if jobs != [] {
      OthersVisitAll(w, jobs[..|jobs| - 1], now, id);
      OthersVisit(VisitAll(w, jobs[..|jobs| - 1], now), jobs[|jobs| - 1], now, id);
    }
  }

  lemma {:induction false} VisitTracks(w: World, jobs: seq<Job>, k: nat, now: int, anchor: int, m: nat, pos: nat) returns (m': nat, pos': nat)
    requires CronScheduler.Sound(jobs) && k < |jobs| && jobs[k].missed.CatchUp? && Tracked(w, jobs[k], anchor, m, pos)
    ensures m <= m' && Tracked(VisitAll(w, jobs, now), jobs[k], anchor, m', pos')
    decreases |jobs|
  {
    var rest := jobs[..|jobs| - 1];
    if k == |jobs| - 1 {
      OthersVisitAll(w, rest, now, jobs[k].id);
      m', pos' := CatchUpTracks(VisitAll(w, rest, now), jobs[k], anchor, m, pos, now, CATCH_UP_CAP);
    } else {
      m', pos' := VisitTracks(w, rest, k, now, anchor, m, pos);
      OthersVisit(VisitAll(w, rest, now), jobs[|jobs| - 1], now, jobs[k].id);
    }
  }

  /**
   A catch-up job never skips a match, whatever the clock does and wherever a tick
   fails or the process dies: its fires walk the matches after its anchor one by one,
   each failure at worst repeating one, and its record never falls more than one behind them.
   */
  lemma {:induction false} CatchUpNeverSkips(w: World, jobs: seq<Job>, k: nat, steps: seq<Step>, anchor: int, m: nat, pos: nat)
    returns (m': nat, pos': nat)
    requires CronScheduler.Sound(jobs) && k < |jobs| && jobs[k].missed.CatchUp? && Tracked(w, jobs[k], anchor, m, pos)
    ensures m <= m' && Tracked(RunWorld(w, jobs, steps), jobs[k], anchor, m', pos')
    decreases |steps|
  {
    if steps == [] {
      m', pos' := m, pos;
    } else {
      var next := StepWorld(w, jobs, steps[0]);
      m', pos' := m, pos;
      if steps[0].Tick? {
        BootKeepsAnchors(w, jobs, steps[0].now, jobs[k].id);
        m', pos' := VisitTracks(BootAll(w, jobs, steps[0].now), jobs, k, steps[0].now, anchor, m, pos);
      }
      m', pos' := CatchUpNeverSkips(next, jobs, k, steps[1..], anchor, m', pos');
    }
  }

  /** A job's first visit anchors it at the clock and fires nothing. */
  lemma {:induction false} FirstVisitAnchors(w: World, jobs: seq<Job>, k: nat, now: int)
    requires CronScheduler.Sound(jobs) && k < |jobs| && jobs[k].id !in w.lastRun && FiresOf(w.log, jobs[k].id) == []
    ensures var t := VisitAll(w, jobs, now);
      if jobs[k].id in t.lastRun then Exact(t, jobs[k], now, 0) && Tracked(t, jobs[k], now, 0, 0)
      else t.dead && FiresOf(t.log, jobs[k].id) == []
    decreases |jobs|
  {
    var rest := jobs[..|jobs| - 1];
    if k == |jobs| - 1 {
      OthersVisitAll(w, rest, now, jobs[k].id);
    } else {
      FirstVisitAnchors(w, rest, k, now);
      OthersVisit(VisitAll(w, rest, now), jobs[|jobs| - 1], now, jobs[k].id);
    }
  }

  // ----- runs in which nothing fails -----

  predicate AllTicks(steps: seq<Step>) {
    forall i :: 0 <= i < |steps| ==> steps[i].Tick?
  }

  lemma {:induction false} DeadForGood(w: World, jobs: seq<Job>, now: int)
    requires forall j :: 0 <= j < |jobs| ==> Advancing(jobs[j].next)
    requires w.dead
    ensures VisitAll(w, jobs, now).dead
    decreases |jobs|
  {
    if jobs != [] {
      DeadForGood(w, jobs[..|jobs| - 1], now);
      var mid := VisitAll(w, jobs[..|jobs| - 1], now);
      var last := jobs[|jobs| - 1];
      if last.id in mid.lastRun {
        DeadStays(mid, last.id, DueFires(last, mid.lastRun[last.id], now), now);
      }
    }
  }

  lemma {:induction false} DeadRun(w: World, jobs: seq<Job>, steps: seq<Step>)
    requires CronScheduler.Sound(jobs) && AllTicks(steps) && w.dead
    ensures RunWorld(w, jobs, steps).dead
    decreases |steps|
  {
    if steps != [] {
      BootKeepsAnchors(w, jobs, steps[0].now, 0);
      DeadForGood(BootAll(w, jobs, steps[0].now), jobs, steps[0].now);
      DeadRun(StepWorld(w, jobs, steps[0]), jobs, steps[1..]);
    }
  }

  lemma {:induction false} VisitExact(w: World, jobs: seq<Job>, k: nat, now: int, anchor: int, m: nat) returns (m': nat)
    requires CronScheduler.Sound(jobs) && k < |jobs| && jobs[k].missed.CatchUp? && Exact(w, jobs[k], anchor, m)
    ensures m <= m' <= m + CATCH_UP_CAP
    ensures !VisitAll(w, jobs, now).dead ==>
      Exact(VisitAll(w, jobs, now), jobs[k], anchor, m') && (m' == m + CATCH_UP_CAP || Orbit(jobs[k].next, anchor, m' + 1) > now)
    decreases |jobs|
  {
    var rest := jobs[..|jobs| - 1];
    if k == |jobs| - 1 {
      OthersVisitAll(w, rest, now, jobs[k].id);
      m' := CatchUpExact(VisitAll(w, rest, now), jobs[k], anchor, m, now, CATCH_UP_CAP);
    } else {
      m' := VisitExact(w, rest, k, now, anchor, m);
      OthersVisit(VisitAll(w, rest, now), jobs[|jobs| - 1], now, jobs[k].id);
    }
  }

  /**
   If nothing fails a catch-up job fires exactly a prefix of the matches after its
   anchor, each once and in order, whatever the clock does and despite the cap on
   fires per tick.
   */
  lemma {:induction false} CatchUpFiresEachOnce(w: World, jobs: seq<Job>, k: nat, steps: seq<Step>, anchor: int, m: nat) returns (m': nat)
    requires CronScheduler.Sound(jobs) && k < |jobs| && jobs[k].missed.CatchUp? && Exact(w, jobs[k], anchor, m)
    requires AllTicks(steps) && !RunWorld(w, jobs, steps).dead
    ensures m <= m' && Exact(RunWorld(w, jobs, steps), jobs[k], anchor, m')
    decreases |steps|
  {
    if steps == [] {
      m' := m;
    } else {
      var next := StepWorld(w, jobs, steps[0]);
      assert AllTicks(steps[1..]);
      if next.dead {
        DeadRun(next, jobs, steps[1..]);
      }
      BootKeepsAnchors(w, jobs, steps[0].now, jobs[k].id);
      m' := VisitExact(BootAll(w, jobs, steps[0].now), jobs, k, steps[0].now, anchor, m);
      m' := CatchUpFiresEachOnce(next, jobs, k, steps[1..], anchor, m');
    }
  }

  // ----- skip jobs -----

  /** Every fire of the job was made by a tick at or after it and before the next match. */
  ghost predicate FiresLatest(log: seq<Run>, job: Job) {
    forall i | 0 <= i < |log| :: log[i].Fired? && log[i].job == job.id ==> log[i].epoch <= log[i].at < job.next(log[i].epoch)
  }

  /** The record is at or past every fire, and fires only ever advance. */
  ghost predicate Advanced(w: World, job: Job) {
    && Ascending(FiresOf(w.log, job.id))
    && (job.id in w.lastRun ==> forall f :: f in FiresOf(w.log, job.id) ==> f <= w.lastRun[job.id])
    && (job.id !in w.lastRun ==> FiresOf(w.log, job.id) == [])
  }

  lemma AscendingAppend(fires: seq<int>, f: int)
    requires Ascending(fires) && forall x :: x in fires ==> x < f
    ensures Ascending(fires + [f])
  {
    forall i, j | 0 <= i < j < |fires + [f]| ensures (fires + [f])[i] < (fires + [f])[j] {
      if j == |fires| {
        assert fires[i] in fires;
      }
    }
  }

  lemma SkipFire(w: World, job: Job, f: int, at: int)
    requires job.id in w.lastRun && w.lastRun[job.id] < f <= at < job.next(f)
    requires FiresLatest(w.log, job) && Advanced(w, job)
    ensures var t := FireOne(w, job.id, f, at); FiresLatest(t.log, job) && (!t.dead ==> Advanced(t, job))
  {
    FiresOfAppend(w.log, Fired(job.id, f, at), job.id);
    AscendingAppend(FiresOf(w.log, job.id), f);
    hide FiresOf, Ascending;
  }

  lemma SkipVisit(w: World, job: Job, now: int)
    requires Advancing(job.next) && job.missed.Skip? && FiresLatest(w.log, job) && Advanced(w, job)
    ensures var t := Visit(w, job, now); FiresLatest(t.log, job) && (!t.dead ==> Advanced(t, job))
  {
    if job.id in w.lastRun {
      var base := w.lastRun[job.id];
      LatestIsLast(job.next, base, now);
      var fires := DueFires(job, base, now);
      hide Latest, Advanced, FiresLatest, FireOne;
      if fires != [] {
        SkipFire(w, job, fires[0], now);
        assert fires[1..] == [];
        assert FireAll(FireOne(w, job.id, fires[0], now), job.id, [], now) == FireOne(w, job.id, fires[0], now);
      }
    } else {
      hide Latest;
    }
  }

  lemma {:induction false} OthersFireLatest(w: World, other: Id, fires: seq<int>, at: int, job: Job)
    requires other != job.id && FiresLatest(w.log, job)
    ensures FiresLatest(FireAll(w, other, fires, at).log, job)
    decreases |fires|
  {
    if fires != [] {
      OthersFireLatest(FireOne(w, other, fires[0], at), other, fires[1..], at, job);
    }
  }

  lemma OthersLatest(w: World, other: Job, now: int, job: Job)
    requires Advancing(other.next) && other.id != job.id && FiresLatest(w.log, job)
    ensures FiresLatest(Visit(w, other, now).log, job)
  {
    if other.id in w.lastRun {
      OthersFireLatest(w, other.id, DueFires(other, w.lastRun[other.id], now), now, job);
    }
  }

  lemma {:induction false} BootLatest(w: World, jobs: seq<Job>, now: int, job: Job)
    requires FiresLatest(w.log, job)
    ensures FiresLatest(BootAll(w, jobs, now).log, job)
    decreases |jobs|
  {
    if jobs != [] {
      BootLatest(w, jobs[..|jobs| - 1], now, job);
    }
  }

  lemma {:induction false} SkipVisitAll(w: World, jobs: seq<Job>, n: nat, k: nat, now: int)
    requires CronScheduler.Sound(jobs) && n <= |jobs| && k < |jobs| && jobs[k].missed.Skip?
    requires FiresLatest(w.log, jobs[k]) && Advanced(w, jobs[k])
    ensures var t := VisitAll(w, jobs[..n], now); FiresLatest(t.log, jobs[k]) && (!t.dead ==> Advanced(t, jobs[k]))
    ensures !VisitAll(w, jobs[..n], now).dead ==> !w.dead
    decreases n
  {
    if n > 0 {
      assert jobs[..n][..n - 1] == jobs[..n - 1];
      SkipVisitAll(w, jobs, n - 1, k, now);
      var mid := VisitAll(w, jobs[..n - 1], now);
      VisitAlive(mid, jobs[n - 1], now);
      hide FiresLatest, Advanced, Visit;
      if n - 1 == k {
        if mid.dead {
          DeadVisit(mid, jobs[k], now);
        } else {
          SkipVisit(mid, jobs[k], now);
        }
      } else {
        OthersLatest(mid, jobs[n - 1], now, jobs[k]);
        OthersVisit(mid, jobs[n - 1], now, jobs[k].id);
        SameAdvanced(mid, Visit(mid, jobs[n - 1], now), jobs[k]);
      }
    }
  }

  lemma SameAdvanced(a: World, b: World, job: Job)
    requires SameJob(a, b, job.id)
    ensures Advanced(a, job) <==> Advanced(b, job)
  {
  }

  lemma DeadVisit(w: World, job: Job, now: int)
    requires Advancing(job.next) && w.dead
    ensures Visit(w, job, now) == w
  {
    if job.id in w.lastRun {
      DeadStays(w, job.id, DueFires(job, w.lastRun[job.id], now), now);
    }
  }

  lemma VisitAlive(w: World, job: Job, now: int)
    requires Advancing(job.next)
    ensures !Visit(w, job, now).dead ==> !w.dead
  {
    if w.dead {
      DeadVisit(w, job, now);
    }
  }

  /**
   If nothing fails a skip job's fires strictly advance, and each is the latest match
   not after the tick that made it: downtime is never replayed.
   */
  lemma {:induction false} SkipFiresLatest(w: World, jobs: seq<Job>, k: nat, steps: seq<Step>)
    requires CronScheduler.Sound(jobs) && k < |jobs| && jobs[k].missed.Skip?
    requires FiresLatest(w.log, jobs[k]) && Advanced(w, jobs[k])
    requires AllTicks(steps) && !RunWorld(w, jobs, steps).dead
    ensures FiresLatest(RunWorld(w, jobs, steps).log, jobs[k]) && Advanced(RunWorld(w, jobs, steps), jobs[k])
    decreases |steps|
  {
    hide FiresLatest, Advanced;
    if steps != [] {
      var next := StepWorld(w, jobs, steps[0]);
      var now := steps[0].now;
      assert AllTicks(steps[1..]) && jobs[..|jobs|] == jobs;
      if next.dead {
        DeadRun(next, jobs, steps[1..]);
      }
      BootKeepsAnchors(w, jobs, now, jobs[k].id);
      BootLatest(w, jobs, now, jobs[k]);
      SameAdvanced(w, BootAll(w, jobs, now), jobs[k]);
      SkipVisitAll(BootAll(w, jobs, now), jobs, |jobs|, k, now);
      SkipFiresLatest(next, jobs, k, steps[1..]);
    }
  }

  // ----- a tick in which nothing fails leaves nothing due -----

  lemma SkipSettles(w: World, job: Job, now: int)
    requires Advancing(job.next) && job.missed.Skip? && job.id in w.lastRun && w.lastRun[job.id] >= 0
    ensures var t := Visit(w, job, now); !t.dead ==> Settled(w, t, job, now)
  {
    var base := w.lastRun[job.id];
    var fires := DueFires(job, base, now);
    WhatIsDue(job, base, now);
    hide DueFires;
    if fires != [] {
      FiresOfAppend(w.log, Fired(job.id, fires[0], now), job.id);
      assert fires[1..] == [];
      assert FireAll(FireOne(w, job.id, fires[0], now), job.id, [], now) == FireOne(w, job.id, fires[0], now);
    }
  }

  /** No match is left between the record and the clock, and a record that moved is the one new fire. */
  ghost predicate Settled(w: World, t: World, job: Job, now: int) {
    && job.id in w.lastRun && job.id in t.lastRun && job.next(t.lastRun[job.id]) > now && t.lastRun[job.id] >= w.lastRun[job.id]
    && if job.next(w.lastRun[job.id]) > now
       then t.lastRun[job.id] == w.lastRun[job.id] && FiresOf(t.log, job.id) == FiresOf(w.log, job.id)
       else t.lastRun[job.id] <= now && FiresOf(t.log, job.id) == FiresOf(w.log, job.id) + [t.lastRun[job.id]]
  }

  lemma {:induction false} SkipSettlesAll(w: World, jobs: seq<Job>, n: nat, k: nat, now: int)
    requires CronScheduler.Sound(jobs) && k < n <= |jobs| && jobs[k].missed.Skip? && jobs[k].id in w.lastRun && w.lastRun[jobs[k].id] >= 0
    ensures var t := VisitAll(w, jobs[..n], now); !t.dead ==> Settled(w, t, jobs[k], now)
    decreases n
  {
    assert jobs[..n][..n - 1] == jobs[..n - 1];
    var mid := VisitAll(w, jobs[..n - 1], now);
    VisitAlive(mid, jobs[n - 1], now);
    if n - 1 == k {
      assert forall j :: 0 <= j < k ==> jobs[..k][j] == jobs[j];
      OthersVisitAll(w, jobs[..k], now, jobs[k].id);
      SkipSettles(mid, jobs[k], now);
    } else {
      SkipSettlesAll(w, jobs, n - 1, k, now);
      OthersVisit(mid, jobs[n - 1], now, jobs[k].id);
    }
  }

  /** A run is its steps up to any point, and then the others. */
  lemma {:induction false} RunSplit(w: World, jobs: seq<Job>, steps: seq<Step>, last: Step)
    requires CronScheduler.Sound(jobs)
    ensures RunWorld(w, jobs, steps + [last]) == StepWorld(RunWorld(w, jobs, steps), jobs, last)
    decreases |steps|
  {
    if steps == [] {
      assert RunWorld(StepWorld(w, jobs, last), jobs, []) == StepWorld(w, jobs, last);
      assert ([] + [last])[1..] == [];
    } else {
      assert (steps + [last])[1..] == steps[1..] + [last];
      RunSplit(StepWorld(w, jobs, steps[0]), jobs, steps[1..], last);
    }
  }

  /**
   Whatever happened before, a tick in which nothing fails leaves an anchored skip job
   with no match due: its record moves exactly if one was, to the one fire the tick
   logs, which is then the last match not after the clock.
   */
  lemma SkipIsSettled(w: World, jobs: seq<Job>, k: nat, steps: seq<Step>, now: int)
    requires CronScheduler.Sound(jobs) && k < |jobs| && jobs[k].missed.Skip?
    requires var before := RunWorld(w, jobs, steps); jobs[k].id in before.lastRun && before.lastRun[jobs[k].id] >= 0
    requires !RunWorld(w, jobs, steps + [Tick(now)]).dead
    ensures Settled(RunWorld(w, jobs, steps), RunWorld(w, jobs, steps + [Tick(now)]), jobs[k], now)
  {
    var before := RunWorld(w, jobs, steps);
    RunSplit(w, jobs, steps, Tick(now));
    BootKeepsAnchors(before, jobs, now, jobs[k].id);
    assert jobs[..|jobs|] == jobs;
    SkipSettlesAll(BootAll(before, jobs, now), jobs, |jobs|, k, now);
  }

  /** And a catch-up job fires five more matches, or has none left that is due. */
  lemma CatchUpIsSettled(w: World, jobs: seq<Job>, k: nat, steps: seq<Step>, now: int, anchor: int, m: nat) returns (m': nat)
    requires CronScheduler.Sound(jobs) && k < |jobs| && jobs[k].missed.CatchUp? && Exact(RunWorld(w, jobs, steps), jobs[k], anchor, m)
    requires !RunWorld(w, jobs, steps + [Tick(now)]).dead
    ensures Exact(RunWorld(w, jobs, steps + [Tick(now)]), jobs[k], anchor, m')
    ensures m' == m + CATCH_UP_CAP || (m <= m' < m + CATCH_UP_CAP && Orbit(jobs[k].next, anchor, m' + 1) > now)
  {
    var before := RunWorld(w, jobs, steps);
    RunSplit(w, jobs, steps, Tick(now));
    BootKeepsAnchors(before, jobs, now, jobs[k].id);
    m' := VisitExact(BootAll(before, jobs, now), jobs, k, now, anchor, m);
  }

  lemma {:induction false} BootPassExact(w: World, jobs: seq<Job>, now: int, id: Id)
    requires !BootAll(w, jobs, now).dead
    ensures var t := BootAll(w, jobs, now);
      && (AsksToBoot(jobs, id) ==> id in t.bootRan)
      && BootsOf(t.log, id) == BootsOf(w.log, id) + (if AsksToBoot(jobs, id) && id !in w.bootRan then 1 else 0)
    decreases |jobs|
  {
    hide BootsOf;
    if jobs != [] {
      var rest, last := jobs[..|jobs| - 1], jobs[|jobs| - 1];
      var mid := BootAll(w, rest, now);
      BootPassExact(w, rest, now, id);
      BootPass(w, rest, now, id);
      BootsOfAppend(mid.log, BootRun(last.id, now), id);
      assert forall j :: 0 <= j < |rest| ==> rest[j] == jobs[j];
      assert AsksToBoot(jobs, id) <==> AsksToBoot(rest, id) || (last.id == id && last.runAtBoot);
    }
  }

  /** And exactly the jobs that ask to boot and have not booted in this process have booted once more. */
  lemma BootsRun(w: World, jobs: seq<Job>, steps: seq<Step>, now: int, id: Id)
    requires CronScheduler.Sound(jobs) && !RunWorld(w, jobs, steps + [Tick(now)]).dead
    ensures var before, after := RunWorld(w, jobs, steps), RunWorld(w, jobs, steps + [Tick(now)]);
      BootsOf(after.log, id) == BootsOf(before.log, id) + (if AsksToBoot(jobs, id) && id !in before.bootRan then 1 else 0)
  {
    hide BootsOf, AsksToBoot, BootAll, VisitAll;
    var before := RunWorld(w, jobs, steps);
    RunSplit(w, jobs, steps, Tick(now));
    var booted := BootAll(before, jobs, now);
    if booted.dead {
      DeadForGood(booted, jobs, now);
    } else {
      BootPassExact(before, jobs, now, id);
      VisitsBootNone(booted, jobs, now, id);
    }
  }

  // ----- schedules at a fixed offset -----

  /** `next` is what the search answers for this schedule, which always has a next match. */
  ghost predicate Follows(next: int -> int, s: Schedule, off: Offset) {
    forall after :: exists l :: FirstFire(s, after, off, l, next(after))
  }

  lemma FollowsAdvances(next: int -> int, s: Schedule, off: Offset)
    requires Follows(next, s, off)
    ensures Advancing(next)
  {
    hide FirstFire;
    forall t ensures next(t) > t {
      var l :| FirstFire(s, t, off, l, next(t));
      AnswerIsSound(s, t, off, l, next(t));
    }
  }

  lemma NextIsLeast(next: int -> int, s: Schedule, off: Offset, k: int, t: int)
    requires Follows(next, s, off) && Fixed(off, k)
    ensures Due(s, k, next(t)) && next(t) > t && forall e :: Due(s, k, e) && e > t ==> next(t) <= e
  {
    hide FirstFire;
    var l :| FirstFire(s, t, off, l, next(t));
    AnswerIsLeast(s, t, off, k, l, next(t));
  }

  /**
   At a fixed offset the first `m` matches after an anchor are exactly the matching
   minutes up to the last of them: firing them all leaves no gap.
   */
  lemma {:induction false} OrbitIsEveryMatch(next: int -> int, s: Schedule, off: Offset, k: int, anchor: int, m: nat)
    requires Follows(next, s, off) && Fixed(off, k)
    ensures forall e :: anchor < e <= Orbit(next, anchor, m) ==> (Due(s, k, e) <==> e in OrbitPrefix(next, anchor, m))
    decreases m
  {
    hide Due, Follows;
    if m > 0 {
      OrbitIsEveryMatch(next, s, off, k, anchor, m - 1);
      NextIsLeast(next, s, off, k, Orbit(next, anchor, m - 1));
      assert OrbitPrefix(next, anchor, m) == OrbitPrefix(next, anchor, m - 1) + [Orbit(next, anchor, m)];
      FollowsAdvances(next, s, off);
      forall e | anchor < e <= Orbit(next, anchor, m) ensures Due(s, k, e) <==> e in OrbitPrefix(next, anchor, m) {
        if e > Orbit(next, anchor, m - 1) {
          PrefixBelow(next, anchor, m - 1, e);
        } else {
          OrbitAscends(next, anchor, m - 1, m);
        }
      }
    }
  }

  lemma PrefixBelow(next: int -> int, anchor: int, m: nat, e: int)
    requires Advancing(next) && e > Orbit(next, anchor, m)
    ensures e !in OrbitPrefix(next, anchor, m)
  {
    forall i | 0 <= i < m ensures OrbitPrefix(next, anchor, m)[i] != e {
      if i + 1 < m {
        OrbitAscends(next, anchor, i + 1, m);
      }
    }
  }

  /** At a fixed offset, what a skip job fires is the last matching minute not after its tick. */
  lemma LatestMatch(next: int -> int, s: Schedule, off: Offset, k: int, base: int, now: int)
    requires Follows(next, s, off) && Fixed(off, k) && Advancing(next) && Latest(next, base, now).Some?
    ensures var f := Latest(next, base, now).value;
      f <= now && Due(s, k, f) && forall e :: f < e <= now ==> !Due(s, k, e)
  {
    LatestIsLast(next, base, now);
    var t := LatestIsNext(next, base, now);
    NextIsLeast(next, s, off, k, t);
    NextIsLeast(next, s, off, k, Latest(next, base, now).value);
  }

  lemma {:induction false} LatestIsNext(next: int -> int, base: int, now: int) returns (t: int)
    requires Advancing(next) && Latest(next, base, now).Some?
    ensures Latest(next, base, now).value == next(t)
    decreases now - base
  {
    if Latest(next, next(base), now).Some? {
      t := LatestIsNext(next, next(base), now);
    } else {
      t := base;
    }
  }
}
