/**
 The cron tick loop and its persisted last-run (packages/core/src/cron-scheduler.ts).

 A job's next match is a function of an instant: what `nextRunAfter` answers for its
 schedule and zone. Running a job and writing its last-run file are the two effects
 of the loop; `fuel` of them succeed and the next one does not happen. That ends the
 tick, and what comes after it is either a new process or, where the effect failed
 and the process lives on, another tick a minute later.
 */
module CronScheduler {
  import opened Wrappers

  type Id = int

  datatype Missed = Skip | CatchUp

  datatype Job = Job(id: Id, missed: Missed, runAtBoot: bool, next: int -> int)

  datatype Run = BootRun(job: Id, at: int) | Fired(job: Id, epoch: int, at: int)

  const CATCH_UP_CAP: nat := 5
  const MAX_WAKE_MS := 60000

  ghost predicate Advancing(next: int -> int) {
    forall t :: next(t) > t
  }

  ghost predicate Sound(jobs: seq<Job>) {
    && (forall j :: 0 <= j < |jobs| ==> Advancing(jobs[j].next))
    && (forall i, j :: 0 <= i < j < |jobs| ==> jobs[i].id != jobs[j].id)
  }

  // ----- what is due -----

  ghost function Latest(next: int -> int, base: int, now: int): Option<int>
    requires Advancing(next)
    decreases now - base
  {
    if next(base) > now then None
    else
      var later := Latest(next, next(base), now);
      if later.Some? then later else Some(next(base))
  }

  function CatchUpFires(next: int -> int, base: int, now: int, cap: nat): seq<int>
    decreases cap
  {
    if cap == 0 || next(base) > now then [] else [next(base)] + CatchUpFires(next, next(base), now, cap - 1)
  }

  ghost function DueFires(job: Job, base: int, now: int): seq<int>
    requires Advancing(job.next)
  {
    match job.missed
    case Skip =>
      var latest := Latest(job.next, base, now);
      if latest.Some? && latest.value >= 0 then [latest.value] else []
    case CatchUp => CatchUpFires(job.next, base, now, CATCH_UP_CAP)
  }

  /** One fire, at the last match after `base` and not after `now`, or none where there is no such match. */
  predicate LatestOnly(next: int -> int, base: int, now: int, fires: seq<int>) {
    if next(base) > now then fires == []
    else |fires| == 1 && base < fires[0] <= now < next(fires[0])
  }

  /** The matches after `base` one after another, up to `now` or `cap` of them. */
  predicate EachInTurn(next: int -> int, base: int, now: int, fires: seq<int>, cap: nat) {
    && |fires| <= cap
    && (forall i :: 0 <= i < |fires| ==> fires[i] == next(Before(base, fires, i)) <= now)
    && (|fires| < cap ==> next(Before(base, fires, |fires|)) > now)
  }

  function Before(base: int, fires: seq<int>, i: nat): int
    requires i <= |fires|
  {
    if i == 0 then base else fires[i - 1]
  }

  /** The match `skip` fires: after the record, not after the clock, and the last such. */
  lemma {:induction false} LatestIsLast(next: int -> int, base: int, now: int)
    requires Advancing(next)
    ensures Latest(next, base, now).None? <==> next(base) > now
    ensures Latest(next, base, now).Some? ==> base < Latest(next, base, now).value <= now < next(Latest(next, base, now).value)
    decreases now - base
  {
    if next(base) <= now {
      LatestIsLast(next, next(base), now);
    }
  }

  lemma {:induction false} CatchUpInTurn(next: int -> int, base: int, now: int, cap: nat)
    ensures EachInTurn(next, base, now, CatchUpFires(next, base, now, cap), cap)
    decreases cap
  {
    if cap > 0 && next(base) <= now {
      var rest, fires := CatchUpFires(next, next(base), now, cap - 1), CatchUpFires(next, base, now, cap);
      CatchUpInTurn(next, next(base), now, cap - 1);
      assert fires == [next(base)] + rest;
      hide CatchUpFires;
      assert forall i :: 0 < i <= |fires| ==> Before(base, fires, i) == Before(next(base), rest, i - 1);
      assert forall i :: 0 < i < |fires| ==> fires[i] == rest[i - 1];
    }
  }

  /** A skip job is due once at most, for the last match; a catch-up job for each match in turn, up to five. */
  lemma WhatIsDue(job: Job, base: int, now: int)
    requires Advancing(job.next)
    ensures job.missed.Skip? && base >= 0 ==> LatestOnly(job.next, base, now, DueFires(job, base, now))
    ensures job.missed.CatchUp? ==> EachInTurn(job.next, base, now, DueFires(job, base, now), 5)
  {
    LatestIsLast(job.next, base, now);
    CatchUpInTurn(job.next, base, now, CATCH_UP_CAP);
  }

  method ComputeDueFires(job: Job, lastRun: Option<int>, now: int) returns (fires: seq<int>)
    requires Advancing(job.next)
    ensures fires == DueFires(job, if lastRun.Some? then lastRun.value else now, now)
    ensures var base := if lastRun.Some? then lastRun.value else now;
      if job.missed.Skip? then base >= 0 ==> LatestOnly(job.next, base, now, fires) else EachInTurn(job.next, base, now, fires, 5)
  {
    hide LatestOnly, EachInTurn;
    var base := if lastRun.Some? then lastRun.value else now;
    WhatIsDue(job, base, now);
    if job.missed.Skip? {
      var latest := -1;
      var cursor := base;
      var fire := job.next(cursor);
      while fire <= now
        invariant fire == job.next(cursor)
        invariant cursor == base || latest == cursor
        invariant cursor == base ==> latest == -1
        invariant Latest(job.next, base, now) == (if cursor == base || Latest(job.next, cursor, now).Some?
                                                  then Latest(job.next, cursor, now) else Some(cursor))
        invariant cursor >= base
        decreases now - cursor
      {
        latest := fire;
        cursor := fire;
        fire := job.next(cursor);
      }
      return if latest >= 0 then [latest] else [];
    }
    fires := [];
    var cursor := base;
    for i := 0 to CATCH_UP_CAP
      invariant fires + CatchUpFires(job.next, cursor, now, CATCH_UP_CAP - i) == CatchUpFires(job.next, base, now, CATCH_UP_CAP)
    {
      var fire := job.next(cursor);
      if fire > now {
        return;
      }
      assert fires + ([fire] + CatchUpFires(job.next, fire, now, CATCH_UP_CAP - i - 1))
          == fires + [fire] + CatchUpFires(job.next, fire, now, CATCH_UP_CAP - i - 1);
      fires := fires + [fire];
      cursor := fire;
    }
  }

  // ----- ticks as functions of the world -----

  /** `dead`: the tick was cut short. */
  datatype World = World(lastRun: map<Id, int>, bootRan: set<Id>, log: seq<Run>, fuel: nat, dead: bool)

  /** One effect, or the end of the tick. */
  function Spend(w: World): World {
    if w.dead || w.fuel == 0 then w.(dead := true) else w.(fuel := w.fuel - 1)
  }

  function Execute(w: World, run: Run): World {
    var t := Spend(w);
    if t.dead then t else t.(log := t.log + [run])
  }

  function WriteLastRun(w: World, id: Id, epoch: int): World {
    var t := Spend(w);
    if t.dead then t else t.(lastRun := t.lastRun[id := epoch])
  }

  function FireOne(w: World, id: Id, epoch: int, at: int): World {
    WriteLastRun(Execute(w, Fired(id, epoch, at)), id, epoch)
  }

  function FireAll(w: World, id: Id, fires: seq<int>, at: int): World
    decreases |fires|
  {
    if fires == [] then w else FireAll(FireOne(w, id, fires[0], at), id, fires[1..], at)
  }

  /** Anchor a job never seen, otherwise fire what is due. */
  ghost function Visit(w: World, job: Job, now: int): World
    requires Advancing(job.next)
  {
    if job.id !in w.lastRun then WriteLastRun(w, job.id, now)
    else FireAll(w, job.id, DueFires(job, w.lastRun[job.id], now), now)
  }

  ghost function VisitAll(w: World, jobs: seq<Job>, now: int): World
    requires forall j :: 0 <= j < |jobs| ==> Advancing(jobs[j].next)
    decreases |jobs|
  {
    if jobs == [] then w else Visit(VisitAll(w, jobs[..|jobs| - 1], now), jobs[|jobs| - 1], now)
  }

  function Boot(w: World, job: Job, now: int): World {
    if w.dead || !job.runAtBoot || job.id in w.bootRan then w
    else Execute(w.(bootRan := w.bootRan + {job.id}), BootRun(job.id, now))
  }

  function BootAll(w: World, jobs: seq<Job>, now: int): World
    decreases |jobs|
  {
    if jobs == [] then w else Boot(BootAll(w, jobs[..|jobs| - 1], now), jobs[|jobs| - 1], now)
  }

  ghost function Ticked(w: World, jobs: seq<Job>, now: int): World
    requires forall j :: 0 <= j < |jobs| ==> Advancing(jobs[j].next)
  {
    VisitAll(BootAll(w, jobs, now), jobs, now)
  }

  // ----- the loop -----

  class Scheduler {
    var lastRun: map<Id, int>
    var bootRan: set<Id>
    var log: seq<Run>
    var fuel: nat
    var dead: bool

    constructor (lastRun: map<Id, int>, log: seq<Run>, fuel: nat)
      ensures this.lastRun == lastRun && this.log == log && this.fuel == fuel && bootRan == {} && !dead
    {
      this.lastRun, this.log, this.fuel := lastRun, log, fuel;
      bootRan, dead := {}, false;
    }

    function Now(): World
      reads this
    {
      World(lastRun, bootRan, log, fuel, dead)
    }

    method Effect() returns (alive: bool)
      modifies this`fuel, this`dead
      ensures Now() == Spend(old(Now())) && alive == !dead
    {
      if dead || fuel == 0 {
        dead := true;
        return false;
      }
      fuel := fuel - 1;
      return true;
    }

    method RunJob(run: Run)
      modifies this`fuel, this`dead, this`log
      ensures Now() == Execute(old(Now()), run)
    {
      var alive := Effect();
      if alive {
        log := log + [run];
      }
    }

    method Persist(id: Id, epoch: int)
      modifies this`fuel, this`dead, this`lastRun
      ensures Now() == WriteLastRun(old(Now()), id, epoch)
    {
      var alive := Effect();
      if alive {
        lastRun := lastRun[id := epoch];
      }
    }

    /** `fireOne`: run the job, then record the fire. */
    method Fire(id: Id, epoch: int, at: int)
      modifies this`fuel, this`dead, this`log, this`lastRun
      ensures Now() == FireOne(old(Now()), id, epoch, at)
    {
      RunJob(Fired(id, epoch, at));
      Persist(id, epoch);
    }

    method VisitJob(job: Job, now: int)
      requires Advancing(job.next)
      modifies this`fuel, this`dead, this`log, this`lastRun
      ensures Now() == Visit(old(Now()), job, now)
    {
      if job.id !in lastRun {
        Persist(job.id, now);
        return;
      }
      var due := ComputeDueFires(job, Some(lastRun[job.id]), now);
      for i := 0 to |due|
        invariant FireAll(Now(), job.id, due[i..], now) == FireAll(old(Now()), job.id, due, now)
      {
        assert due[i..][1..] == due[i + 1..];
        Fire(job.id, due[i], now);
      }
    }

    /** Boot runs this process has not made yet. */
    method BootJobs(jobs: seq<Job>, now: int)
      modifies this`fuel, this`dead, this`log, this`bootRan
      ensures Now() == BootAll(old(Now()), jobs, now)
    {
      for i := 0 to |jobs|
        invariant Now() == BootAll(old(Now()), jobs[..i], now)
      {
        var job := jobs[i];
        assert jobs[..i + 1][..i] == jobs[..i];
        if !dead && job.runAtBoot && job.id !in bootRan {
          bootRan := bootRan + {job.id};
          RunJob(BootRun(job.id, now));
        }
      }
      assert jobs[..|jobs|] == jobs;
    }

    /** Every job's due fires, and the soonest next match of them all. */
    method VisitJobs(jobs: seq<Job>, now: int) returns (earliest: int)
      requires Sound(jobs) && jobs != []
      modifies this`fuel, this`dead, this`log, this`lastRun
      ensures Now() == VisitAll(old(Now()), jobs, now)
      ensures earliest > now && forall j :: 0 <= j < |jobs| ==> earliest <= jobs[j].next(now)
      ensures exists j :: 0 <= j < |jobs| && earliest == jobs[j].next(now)
    {
      earliest := jobs[0].next(now);
      assert Advancing(jobs[0].next);
      for i := 0 to |jobs|
        invariant Now() == VisitAll(old(Now()), jobs[..i], now)
        invariant earliest > now && forall j :: 0 <= j < i ==> earliest <= jobs[j].next(now)
        invariant exists j :: 0 <= j < |jobs| && earliest == jobs[j].next(now)
      {
        var job := jobs[i];
        assert jobs[..i + 1][..i] == jobs[..i];
        assert Advancing(job.next);
        VisitJob(job, now);
        var next := job.next(now);
        if next < earliest {
          earliest := next;
        }
      }
      assert jobs[..|jobs|] == jobs;
    }

    /** One tick: boot runs, then every job's due fires; answers how long to sleep. */
    method Tick(jobs: seq<Job>, now: int) returns (delay: int)
      requires Sound(jobs)
      modifies this
      ensures Now() == Ticked(old(Now()), jobs, now)
      ensures 0 <= delay <= MAX_WAKE_MS && (dead ==> delay == MAX_WAKE_MS)
      ensures !dead ==> forall j :: 0 <= j < |jobs| ==> now + delay <= jobs[j].next(now)
      ensures delay < MAX_WAKE_MS ==> exists j :: 0 <= j < |jobs| && now + delay == jobs[j].next(now)
    {
      if jobs == [] {
        return MAX_WAKE_MS;
      }
      BootJobs(jobs, now);
      var earliest := VisitJobs(jobs, now);
      if dead {
        return MAX_WAKE_MS;
      }
      var wait := if earliest - now < MAX_WAKE_MS then earliest - now else MAX_WAKE_MS;
      delay := if wait > 0 then wait else 0;
    }

    /** A new process after a crash or a stop: the files survive, the boot marks do not. */
    method Restart(fuel: nat)
      modifies this
      ensures Now() == World(old(lastRun), {}, old(log), fuel, false)
    {
      bootRan, this.fuel, dead := {}, fuel, false;
    }

    /** The tick failed and was caught: the same process goes on, with its boot marks. */
    method Retry(fuel: nat)
      modifies this`fuel, this`dead
      ensures Now() == World(old(lastRun), old(bootRan), old(log), fuel, false)
    {
      this.fuel, dead := fuel, false;
    }
  }
}
