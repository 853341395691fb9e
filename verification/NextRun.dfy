/**
 The next-fire search (packages/core/src/cron-expression.ts, `wallToEpoch` and
 `nextRunAfter`). Instants are epoch milliseconds; a time zone is any function from
 an instant to its offset in minutes.
 */
module NextRun {
  import opened Wrappers
  import opened Calendar
  import opened CronExpression

  type Offset = int -> int

  const MS := 60000
  const MINUTES := 1440
  const MAX_DAYS := 366

  // ----- wall clocks -----

  /** The local wall clock of an instant, as minutes since 1970-01-01 00:00 local. */
  function LocalMinute(off: Offset, e: int): int {
    e / MS + off(e)
  }

  function DayOf(l: int): int {
    l / MINUTES
  }

  function HourOf(l: int): int {
    (l % MINUTES) / 60
  }

  function MinuteOf(l: int): int {
    l % 60
  }

  function MinuteAt(day: int, hour: int, minute: int): int {
    MINUTES * day + 60 * hour + minute
  }

  predicate Clock(hour: int, minute: int) {
    0 <= hour < 24 && 0 <= minute < 60
  }

  lemma MinuteFields(day: int, hour: int, minute: int)
    requires Clock(hour, minute)
    ensures var l := MinuteAt(day, hour, minute); DayOf(l) == day && HourOf(l) == hour && MinuteOf(l) == minute
  {
    By1440(day, 60 * hour + minute);
    By60(hour, minute);
    By60(24 * day + hour, minute);
    assert MinuteAt(day, hour, minute) == 60 * (24 * day + hour) + minute;
  }

  lemma By1440(q: int, r: int)
    requires 0 <= r < 1440
    ensures (1440 * q + r) / 1440 == q && (1440 * q + r) % 1440 == r
  {
  }

  lemma By60(q: int, r: int)
    requires 0 <= r < 60
    ensures (60 * q + r) / 60 == q && (60 * q + r) % 60 == r
  {
  }

  lemma FieldsMinute(l: int)
    ensures l == MinuteAt(DayOf(l), HourOf(l), MinuteOf(l)) && Clock(HourOf(l), MinuteOf(l))
  {
    var r := l % 1440;
    assert r % 60 == l % 60 by {
      assert l == 60 * (24 * (l / 1440)) + r;
    }
  }

  /** `wallEquals`: the formatted parts of an instant against the wanted ones. */
  predicate WallEquals(off: Offset, e: int, c: Civil, hour: int, minute: int) {
    var l := LocalMinute(off, e);
    CivilOf(DayOf(l)) == c && HourOf(l) == hour && MinuteOf(l) == minute
  }

  /** Comparing the parts compares the minute. */
  lemma WallEqualsIsMinute(off: Offset, e: int, c: Civil, hour: int, minute: int)
    requires Valid(c) && Clock(hour, minute)
    ensures WallEquals(off, e, c, hour, minute) <==> LocalMinute(off, e) == MinuteAt(DayNumber(c.year, c.month, c.day), hour, minute)
  {
    var l := LocalMinute(off, e);
    FieldsMinute(l);
    DayNumberOfCivil(DayOf(l));
    CivilOfDayNumber(c);
    MinuteFields(DayNumber(c.year, c.month, c.day), hour, minute);
    hide CivilOf, DayNumber, DayOf, HourOf, MinuteOf;
  }

  /** The instant that shows local minute `l` under offset `k`. */
  function At(l: int, k: int): int {
    (l - k) * MS
  }

  lemma AtShows(off: Offset, l: int, k: int)
    ensures LocalMinute(off, At(l, k)) == l - k + off(At(l, k))
  {
    assert ((l - k) * 60000) / 60000 == l - k;
  }

  /** The two guesses of `wallToEpoch` for a local minute. */
  function EpochOf(off: Offset, l: int): Option<int> {
    var first := At(l, off(l * MS));
    if LocalMinute(off, first) == l then Some(first)
    else
      var second := At(l, off(first));
      if LocalMinute(off, second) == l then Some(second) else None
  }

  method WallToEpoch(off: Offset, c: Civil, hour: int, minute: int) returns (r: Option<int>)
    requires Valid(c) && Clock(hour, minute)
    ensures r == EpochOf(off, MinuteAt(DayNumber(c.year, c.month, c.day), hour, minute))
  {
    hide WallEquals, LocalMinute, DayNumber;
    var guess := MinuteAt(DayNumber(c.year, c.month, c.day), hour, minute) * MS;
    var cand := guess - off(guess) * MS;
    WallEqualsIsMinute(off, cand, c, hour, minute);
    if WallEquals(off, cand, c, hour, minute) {
      return Some(cand);
    }
    cand := guess - off(cand) * MS;
    WallEqualsIsMinute(off, cand, c, hour, minute);
    if WallEquals(off, cand, c, hour, minute) {
      return Some(cand);
    }
    return None;
  }

  // ----- transitions -----

  /** Within a day of `l`, the offset is `before` up to instant `t` and `after` from it on. */
  ghost predicate OneTransition(off: Offset, l: int, t: int, before: int, after: int) {
    && -MINUTES <= before <= MINUTES && -MINUTES <= after <= MINUTES
    && forall e | At(l, MINUTES) <= e <= At(l, -MINUTES) :: off(e) == if e < t then before else after
  }

  /** No instant shows `l`: the old offset would show it too late, the new one too early. */
  predicate InGap(l: int, t: int, before: int, after: int) {
    At(l, before) >= t > At(l, after)
  }

  lemma OffsetAt(off: Offset, l: int, t: int, before: int, after: int, k: int)
    requires OneTransition(off, l, t, before, after) && -MINUTES <= k <= MINUTES
    ensures off(At(l, k)) == if At(l, k) < t then before else after
    ensures LocalMinute(off, At(l, k)) == l <==> off(At(l, k)) == k
  {
    AtShows(off, l, k);
    assert At(l, MINUTES) <= At(l, k) <= At(l, -MINUTES);
  }

  /**
   With one transition nearby, a wall time has no instant exactly when it falls in
   the spring-forward gap, and then no offset at all shows it; of the two instants
   an overlap has, the earlier is returned exactly when the wall time, read as UTC,
   precedes the transition.
   */
  lemma GapExactly(off: Offset, l: int, t: int, before: int, after: int)
    requires OneTransition(off, l, t, before, after)
    ensures EpochOf(off, l).None? <==> InGap(l, t, before, after)
    ensures EpochOf(off, l).None? <==> forall k | -MINUTES <= k <= MINUTES :: LocalMinute(off, At(l, k)) != l
    ensures EpochOf(off, l).Some? ==>
      EpochOf(off, l).value == At(l, if At(l, before) < t && (l * MS < t || At(l, after) < t) then before else after)
  {
    OffsetAt(off, l, t, before, after, 0);
    OffsetAt(off, l, t, before, after, before);
    OffsetAt(off, l, t, before, after, after);
    assert At(l, 0) == l * MS;
    if EpochOf(off, l).None? {
      forall k | -MINUTES <= k <= MINUTES ensures LocalMinute(off, At(l, k)) != l {
        OffsetAt(off, l, t, before, after, k);
      }
    }
    hide At, LocalMinute, OneTransition;
  }

  // ----- matching -----

  /** Day-of-month and day-of-week: a full list is no restriction, two restrictions are alternatives. */
  predicate MatchesDay(s: Schedule, c: Civil, weekday: int) {
    && c.month in s.month
    && if |s.dayOfMonth| == 31 && |s.dayOfWeek| == 7 then true
       else if |s.dayOfMonth| == 31 then weekday in s.dayOfWeek
       else if |s.dayOfWeek| == 7 then c.day in s.dayOfMonth
       else c.day in s.dayOfMonth || weekday in s.dayOfWeek
  }

  /** 1970-01-01 was a Thursday. */
  function Weekday(day: int): int {
    (4 + day) % 7
  }

  predicate MatchesMinute(s: Schedule, l: int) {
    && MatchesDay(s, CivilOf(DayOf(l)), Weekday(DayOf(l)))
    && HourOf(l) in s.hour && MinuteOf(l) in s.minute
  }

  /** Local minute `l` is one the search may answer with: it matches, lies ahead within the window, and exists. */
  predicate Fires(s: Schedule, after: int, off: Offset, l: int) {
    && DayOf(LocalMinute(off, after)) <= DayOf(l) < DayOf(LocalMinute(off, after)) + MAX_DAYS
    && LocalMinute(off, after) < l && MatchesMinute(s, l)
    && EpochOf(off, l).Some? && EpochOf(off, l).value > after
  }

  /** `r` is the instant of the first local minute the search may answer with. */
  ghost predicate FirstFire(s: Schedule, after: int, off: Offset, l: int, r: int) {
    && Fires(s, after, off, l) && EpochOf(off, l) == Some(r)
    && forall x :: x < l ==> !Fires(s, after, off, x)
  }

  // ----- the search -----

  /** Nothing fires on days before `day`. */
  ghost predicate NoneBeforeDay(s: Schedule, after: int, off: Offset, day: int) {
    forall l :: DayOf(l) < day ==> !Fires(s, after, off, l)
  }

  /** Nothing fires on `day` in the first `i` hours listed. */
  ghost predicate NoneBeforeHour(s: Schedule, after: int, off: Offset, day: int, i: nat)
    requires i <= |s.hour|
  {
    forall l :: DayOf(l) == day && HourOf(l) in s.hour[..i] ==> !Fires(s, after, off, l)
  }

  /** Nothing fires on `day` at `hour` in the first `j` minutes listed. */
  ghost predicate NoneBeforeMinute(s: Schedule, after: int, off: Offset, day: int, hour: int, j: nat)
    requires j <= |s.minute|
  {
    forall l :: DayOf(l) == day && HourOf(l) == hour && MinuteOf(l) in s.minute[..j] ==> !Fires(s, after, off, l)
  }

  lemma NextHour(s: Schedule, after: int, off: Offset, day: int, i: nat)
    requires i < |s.hour| && NoneBeforeHour(s, after, off, day, i)
    requires NoneBeforeMinute(s, after, off, day, s.hour[i], |s.minute|)
    ensures NoneBeforeHour(s, after, off, day, i + 1)
  {
    assert s.minute[..|s.minute|] == s.minute && s.hour[..i + 1] == s.hour[..i] + [s.hour[i]];
    hide EpochOf, MatchesDay, CivilOf, DayOf, HourOf, MinuteOf, LocalMinute;
  }

  lemma NextMinute(s: Schedule, after: int, off: Offset, day: int, hour: int, j: nat)
    requires j < |s.minute| && NoneBeforeMinute(s, after, off, day, hour, j) && Clock(hour, s.minute[j])
    requires !Fires(s, after, off, MinuteAt(day, hour, s.minute[j]))
    ensures NoneBeforeMinute(s, after, off, day, hour, j + 1)
  {
    assert s.minute[..j + 1] == s.minute[..j] + [s.minute[j]];
    forall l | DayOf(l) == day && HourOf(l) == hour && MinuteOf(l) in s.minute[..j + 1] ensures !Fires(s, after, off, l) {
      FieldsMinute(l);
    }
  }

  lemma NextDayIs(s: Schedule, after: int, off: Offset, day: int)
    requires NoneBeforeDay(s, after, off, day)
    requires !MatchesDay(s, CivilOf(day), Weekday(day)) || NoneBeforeHour(s, after, off, day, |s.hour|)
    ensures NoneBeforeDay(s, after, off, day + 1)
  {
    assert s.hour[..|s.hour|] == s.hour;
    hide EpochOf, MatchesDay, CivilOf, DayOf, HourOf, MinuteOf, LocalMinute, Weekday;
  }

  lemma FoundFirst(s: Schedule, after: int, off: Offset, day: int, i: nat, j: nat)
    requires WellFormed(s) && i < |s.hour| && j < |s.minute|
    requires NoneBeforeDay(s, after, off, day) && NoneBeforeHour(s, after, off, day, i)
    requires NoneBeforeMinute(s, after, off, day, s.hour[i], j)
    ensures forall x :: x < MinuteAt(day, s.hour[i], s.minute[j]) ==> !Fires(s, after, off, x)
  {
    InRange(s, i, j);
    hide EpochOf, MatchesDay, CivilOf, LocalMinute;
    forall x | x < MinuteAt(day, s.hour[i], s.minute[j]) ensures !Fires(s, after, off, x) {
      FieldsMinute(x);
      assert DayOf(x) <= day;
      if DayOf(x) == day && HourOf(x) in s.hour && MinuteOf(x) in s.minute {
        var p :| 0 <= p < |s.hour| && s.hour[p] == HourOf(x);
        var q :| 0 <= q < |s.minute| && s.minute[q] == MinuteOf(x);
        if p > i || (p == i && q >= j) {
          assert false;
        }
        assert p < i ==> s.hour[p] in s.hour[..i];
        assert q < j ==> s.minute[q] in s.minute[..j];
      }
    }
  }

  /**
   The next fire time strictly after `after`: day by day through the calendar with
   a running weekday, then the listed hours and minutes in order.
   */
  method NextRunAfter(s: Schedule, after: int, off: Offset) returns (r: Option<int>)
    requires WellFormed(s)
    ensures r.Some? ==> exists l :: FirstFire(s, after, off, l, r.value)
    ensures r.None? ==> forall l :: !Fires(s, after, off, l)
  {
    var start := LocalMinute(off, after);
    var first := DayOf(start);
    var date := CivilOf(first);
    var afterHour, afterMinute := HourOf(start), MinuteOf(start);
    hide Fires, EpochOf, CivilOf, WellFormed, MatchesDay, DayNumber, DayOf, HourOf, MinuteOf, LocalMinute, NoneBeforeDay;
    var weekday := UtcDay(date);
    DayNumberOfCivil(first);
    WindowStarts(s, after, off);
    hide Weekday, UtcDay, NoneBeforeHour;
    for day := 0 to MAX_DAYS
      invariant date == CivilOf(first + day) && weekday == Weekday(first + day)
      invariant NoneBeforeDay(s, after, off, first + day)
    {
      if MatchesDay(s, date, weekday) {
        var found := SearchDay(s, after, off, date, first + day, day == 0, afterHour, afterMinute);
        if found.Some? {
          return found;
        }
      }
      NextDayIs(s, after, off, first + day);
      DayAfter(date);
      CivilStep(first + day);
      WeekdayStep(first + day);
      date := CivilOf(DayNumber(date.year, date.month, date.day + 1));
      weekday := (weekday + 1) % 7;
    }
    WindowEnds(s, after, off);
    return None;
  }

  /** `getUTCDay` of a date. */
  function UtcDay(c: Civil): int
    requires Valid(c)
  {
    Weekday(DayNumber(c.year, c.month, c.day))
  }

  lemma WeekdayStep(day: int)
    ensures Weekday(day + 1) == (Weekday(day) + 1) % 7
  {
  }

  lemma WindowStarts(s: Schedule, after: int, off: Offset)
    ensures NoneBeforeDay(s, after, off, DayOf(LocalMinute(off, after)))
  {
  }

  lemma WindowEnds(s: Schedule, after: int, off: Offset)
    requires NoneBeforeDay(s, after, off, DayOf(LocalMinute(off, after)) + MAX_DAYS)
    ensures forall l :: !Fires(s, after, off, l)
  {
  }

  /** One matching day: its hours and minutes in order, skipping what is past on the first day. */
  method SearchDay(s: Schedule, after: int, off: Offset, date: Civil, ghost day: int, today: bool, afterHour: int, afterMinute: int)
    returns (r: Option<int>)
    requires WellFormed(s) && date == CivilOf(day) && MatchesDay(s, date, Weekday(day))
    requires var start := LocalMinute(off, after);
      && DayOf(start) <= day < DayOf(start) + MAX_DAYS && (today <==> day == DayOf(start))
      && afterHour == HourOf(start) && afterMinute == MinuteOf(start)
    requires NoneBeforeDay(s, after, off, day)
    ensures r.Some? ==> exists l :: FirstFire(s, after, off, l, r.value)
    ensures r.None? ==> NoneBeforeHour(s, after, off, day, |s.hour|)
  {
    hide MatchesDay, CivilOf, DayNumber;
    for i := 0 to |s.hour|
      invariant NoneBeforeHour(s, after, off, day, i)
    {
      for j := 0 to |s.minute|
        invariant NoneBeforeMinute(s, after, off, day, s.hour[i], j)
      {
        var hour, minute := s.hour[i], s.minute[j];
        ghost var l := MinuteAt(day, hour, minute);
        InRange(s, i, j);
        var cand: Option<int> := None;
        if !(today && (hour < afterHour || (hour == afterHour && minute <= afterMinute))) {
          DayNumberOfCivil(day);
          cand := WallToEpoch(off, date, hour, minute);
        }
        FiresHere(s, after, off, day, i, j);
        if cand.Some? && cand.value > after {
          FoundFirst(s, after, off, day, i, j);
          assert FirstFire(s, after, off, l, cand.value);
          return cand;
        }
        NextMinute(s, after, off, day, hour, j);
      }
      NextHour(s, after, off, day, i);
    }
    return None;
  }

  lemma InRange(s: Schedule, i: nat, j: nat)
    requires WellFormed(s) && i < |s.hour| && j < |s.minute|
    ensures Clock(s.hour[i], s.minute[j])
  {
    assert s.hour[i] in s.hour && s.minute[j] in s.minute;
  }

  /** On a matching day in the window, a listed time fires when it lies ahead and its instant does. */
  lemma FiresHere(s: Schedule, after: int, off: Offset, day: int, i: nat, j: nat)
    requires WellFormed(s) && i < |s.hour| && j < |s.minute| && MatchesDay(s, CivilOf(day), Weekday(day))
    requires var start := LocalMinute(off, after); DayOf(start) <= day < DayOf(start) + MAX_DAYS
    ensures var start, hour, minute := LocalMinute(off, after), s.hour[i], s.minute[j];
      var l := MinuteAt(day, hour, minute);
      var past := day == DayOf(start) && (hour < HourOf(start) || (hour == HourOf(start) && minute <= MinuteOf(start)));
      Fires(s, after, off, l) <==> !past && EpochOf(off, l).Some? && EpochOf(off, l).value > after
  {
    InRange(s, i, j);
    MinuteFields(day, s.hour[i], s.minute[j]);
    FieldsMinute(LocalMinute(off, after));
    hide EpochOf, MatchesDay, CivilOf, DayOf, HourOf, MinuteOf, LocalMinute;
  }

  // ----- what the answer means -----

  lemma EpochShows(off: Offset, l: int)
    requires EpochOf(off, l).Some?
    ensures LocalMinute(off, EpochOf(off, l).value) == l && EpochOf(off, l).value % MS == 0
  {
    forall k ensures At(l, k) % MS == 0 {
      assert ((l - k) * 60000) % 60000 == 0;
    }
  }

  /**
   In any time zone, an answer is a whole minute strictly after the reference at
   which the local wall clock matches the schedule.
   */
  lemma AnswerIsSound(s: Schedule, after: int, off: Offset, l: int, r: int)
    requires FirstFire(s, after, off, l, r)
    ensures r > after && r % MS == 0
    ensures LocalMinute(off, r) == l && MatchesMinute(s, LocalMinute(off, r))
  {
    EpochShows(off, l);
    hide EpochOf, LocalMinute, MatchesMinute;
  }

  ghost predicate Fixed(off: Offset, k: int) {
    forall e :: off(e) == k
  }

  /** With a fixed offset `k`, instant `e` is a whole minute whose wall clock matches. */
  predicate Due(s: Schedule, k: int, e: int) {
    e % MS == 0 && MatchesMinute(s, e / MS + k)
  }

  lemma AtFixed(l: int, k: int)
    ensures At(l, k) % MS == 0 && At(l, k) / MS + k == l
  {
    assert ((l - k) * 60000) % 60000 == 0 && ((l - k) * 60000) / 60000 == l - k;
  }

  lemma DueIsAt(s: Schedule, k: int, e: int)
    requires Due(s, k, e)
    ensures At(e / MS + k, k) == e
  {
  }

  lemma FixedFires(s: Schedule, after: int, off: Offset, k: int, l: int)
    requires Fixed(off, k)
    ensures EpochOf(off, l) == Some(At(l, k))
    ensures At(l, k) > after <==> l > LocalMinute(off, after)
    ensures Fires(s, after, off, l) <==> Due(s, k, At(l, k)) && At(l, k) > after && DayOf(l) < DayOf(after / MS + k) + MAX_DAYS
  {
    AtShows(off, l, k);
    AtFixed(l, k);
    assert off(after) == k && off(l * MS) == k && off(At(l, k)) == k;
    assert l > LocalMinute(off, after) ==> DayOf(LocalMinute(off, after)) <= DayOf(l);
    hide MatchesMinute;
  }

  /**
   With a fixed offset the answer is the least: no whole minute between the
   reference and it matches the schedule.
   */
  lemma AnswerIsLeast(s: Schedule, after: int, off: Offset, k: int, l: int, r: int)
    requires Fixed(off, k) && FirstFire(s, after, off, l, r)
    ensures Due(s, k, r) && r > after
    ensures forall e :: Due(s, k, e) && e > after ==> r <= e
  {
    FixedFires(s, after, off, k, l);
    forall e | Due(s, k, e) && e > after ensures r <= e {
      var x := e / MS + k;
      DueIsAt(s, k, e);
      FixedFires(s, after, off, k, x);
      assert x < l ==> DayOf(x) <= DayOf(l);
    }
  }

  /** With a fixed offset the search fails exactly when nothing matches in the 366 local days scanned. */
  lemma FailsExactly(s: Schedule, after: int, off: Offset, k: int)
    requires Fixed(off, k)
    ensures (forall l :: !Fires(s, after, off, l))
        <==> forall e :: Due(s, k, e) && e > after ==> DayOf(e / MS + k) >= DayOf(after / MS + k) + MAX_DAYS
  {
    forall l ensures Fires(s, after, off, l) <==>
      Due(s, k, At(l, k)) && At(l, k) > after && DayOf(l) < DayOf(after / MS + k) + MAX_DAYS
    {
      FixedFires(s, after, off, k, l);
    }
    forall e | Due(s, k, e) ensures At(e / MS + k, k) == e {
      DueIsAt(s, k, e);
    }
    forall l ensures At(l, k) / MS + k == l {
      AtFixed(l, k);
    }
    hide Fires, Due, At, DayOf;
  }

  // ----- across one transition -----

  /** From three days before `from` to three days after `to`, the offset changes once at most, at `t`. */
  ghost predicate OneChange(off: Offset, from: int, to: int, t: int, before: int, later: int) {
    && -MINUTES <= before <= MINUTES && -MINUTES <= later <= MINUTES
    && forall e | from - 3 * MINUTES * MS <= e <= to + 3 * MINUTES * MS :: off(e) == if e < t then before else later
  }

  /** Instant `e` is a whole minute whose wall clock matches. */
  predicate Matches(s: Schedule, off: Offset, e: int) {
    e % MS == 0 && MatchesMinute(s, LocalMinute(off, e))
  }

  /**
   The wall clock shows `l` twice, and the search does not see this instant of the two:
   the first, where `l` read as UTC is not before the transition, or the second, where
   it is, or where a reference in the first pass is already at `l` or past it.
   */
  predicate PassedOver(off: Offset, after: int, t: int, before: int, later: int, e: int) {
    var l := LocalMinute(off, e);
    && At(l, before) < t <= At(l, later)
    && if e < t then l * MS >= t else l * MS < t || (after < t && l <= LocalMinute(off, after))
  }

  lemma Nearby(off: Offset, from: int, to: int, t: int, before: int, later: int, e: int)
    requires OneChange(off, from, to, t, before, later) && from <= e <= to
    ensures off(e) == (if e < t then before else later) && OneTransition(off, LocalMinute(off, e), t, before, later)
    ensures e % MS == 0 ==> e == At(LocalMinute(off, e), off(e))
  {
  }

  /** A match after the reference that is not passed over lies ahead on the wall clock, and the search finds its instant. */
  lemma SeenByTheSearch(off: Offset, after: int, to: int, t: int, before: int, later: int, e: int)
    requires OneChange(off, after, to, t, before, later) && after < e <= to && e % MS == 0
    requires !PassedOver(off, after, t, before, later, e)
    ensures LocalMinute(off, after) < LocalMinute(off, e) && EpochOf(off, LocalMinute(off, e)) == Some(e)
  {
    Nearby(off, after, to, t, before, later, after);
    Nearby(off, after, to, t, before, later, e);
    GapExactly(off, LocalMinute(off, e), t, before, later);
    hide EpochOf, OneTransition, OneChange;
  }

  /** And only such a match is an answer. */
  lemma AnswerIsSeen(off: Offset, after: int, to: int, t: int, before: int, later: int, l: int)
    requires EpochOf(off, l).Some? && after < EpochOf(off, l).value <= to && LocalMinute(off, after) < l
    requires OneChange(off, after, to, t, before, later)
    ensures !PassedOver(off, after, t, before, later, EpochOf(off, l).value)
  {
    var r := EpochOf(off, l).value;
    EpochShows(off, l);
    Nearby(off, after, to, t, before, later, r);
    GapExactly(off, l, t, before, later);
    hide EpochOf, OneTransition, OneChange;
  }

  /** Later wall times have later instants, among those the search sees. */
  lemma SeenInOrder(off: Offset, after: int, to: int, t: int, before: int, later: int, x: int, l: int)
    requires OneChange(off, after, to, t, before, later) && EpochOf(off, x).Some? && EpochOf(off, l).Some?
    requires after < EpochOf(off, x).value <= to && after < EpochOf(off, l).value <= to && EpochOf(off, x).value < EpochOf(off, l).value
    ensures x < l
  {
    EpochShows(off, x);
    EpochShows(off, l);
    Nearby(off, after, to, t, before, later, EpochOf(off, x).value);
    Nearby(off, after, to, t, before, later, EpochOf(off, l).value);
    GapExactly(off, x, t, before, later);
    GapExactly(off, l, t, before, later);
    hide EpochOf, OneTransition, OneChange;
  }

  /**
   With one transition around, the answer is the earliest matching instant that is not
   passed over. So it is the earliest of all exactly when no match before it is, and
   where the clock does not go back none is.
   */
  lemma AnswerAcrossChange(s: Schedule, after: int, off: Offset, l: int, r: int, t: int, before: int, later: int)
    requires FirstFire(s, after, off, l, r) && OneChange(off, after, r, t, before, later)
    ensures Matches(s, off, r) && r > after && !PassedOver(off, after, t, before, later, r)
    ensures forall e :: Matches(s, off, e) && e > after && !PassedOver(off, after, t, before, later, e) ==> r <= e
    ensures (forall e :: Matches(s, off, e) && e > after ==> r <= e)
       <==> forall e :: Matches(s, off, e) && after < e < r ==> !PassedOver(off, after, t, before, later, e)
    ensures before <= later ==> forall e :: !PassedOver(off, after, t, before, later, e)
  {
    EpochShows(off, l);
    AnswerIsSeen(off, after, r, t, before, later, l);
    forall e | Matches(s, off, e) && e > after && !PassedOver(off, after, t, before, later, e) ensures r <= e {
      if e < r {
        var x := LocalMinute(off, e);
        SeenByTheSearch(off, after, r, t, before, later, e);
        SeenInOrder(off, after, r, t, before, later, x, l);
        DaysInOrder(LocalMinute(off, after), x, l);
        SeenFires(s, after, off, e);
      }
    }
    hide EpochOf, LocalMinute, MatchesMinute, Fires, DayOf;
  }

  lemma SeenFires(s: Schedule, after: int, off: Offset, e: int)
    requires Matches(s, off, e) && e > after && EpochOf(off, LocalMinute(off, e)) == Some(e)
    requires LocalMinute(off, after) < LocalMinute(off, e)
    requires DayOf(LocalMinute(off, e)) < DayOf(LocalMinute(off, after)) + MAX_DAYS
    ensures Fires(s, after, off, LocalMinute(off, e))
  {
    hide EpochOf, MatchesMinute, LocalMinute;
  }

  lemma DaysInOrder(a: int, b: int, c: int)
    requires a <= b <= c
    ensures DayOf(a) <= DayOf(b) <= DayOf(c)
  {
  }

  /** And the search fails exactly when every match in the 366 local days scanned is passed over. */
  lemma FailsAcrossChange(s: Schedule, after: int, off: Offset, t: int, before: int, later: int)
    requires OneChange(off, after, after + (MAX_DAYS + 3) * MINUTES * MS, t, before, later)
    requires forall e :: -MINUTES <= off(e) <= MINUTES
    ensures (forall l :: !Fires(s, after, off, l)) <==>
      forall e :: Matches(s, off, e) && e > after && DayOf(LocalMinute(off, e)) < DayOf(LocalMinute(off, after)) + MAX_DAYS
        ==> PassedOver(off, after, t, before, later, e)
  {
    var to := after + (MAX_DAYS + 3) * MINUTES * MS;
    forall e | Matches(s, off, e) && e > after && DayOf(LocalMinute(off, e)) < DayOf(LocalMinute(off, after)) + MAX_DAYS
      ensures PassedOver(off, after, t, before, later, e) || Fires(s, after, off, LocalMinute(off, e))
    {
      if !PassedOver(off, after, t, before, later, e) {
        WithinReach(off, after, e);
        SeenByTheSearch(off, after, to, t, before, later, e);
        SeenFires(s, after, off, e);
      }
    }
    forall l | Fires(s, after, off, l)
      ensures Matches(s, off, EpochOf(off, l).value) && LocalMinute(off, EpochOf(off, l).value) == l
      ensures !PassedOver(off, after, t, before, later, EpochOf(off, l).value)
    {
      EpochShows(off, l);
      WithinReach(off, after, EpochOf(off, l).value);
      AnswerIsSeen(off, after, to, t, before, later, l);
    }
    hide EpochOf, LocalMinute, MatchesMinute, DayOf, PassedOver;
  }

  lemma WithinReach(off: Offset, after: int, e: int)
    requires forall x :: -MINUTES <= off(x) <= MINUTES
    requires DayOf(LocalMinute(off, e)) < DayOf(LocalMinute(off, after)) + MAX_DAYS
    ensures e <= after + (MAX_DAYS + 3) * MINUTES * MS
  {
    FieldsMinute(LocalMinute(off, e));
    FieldsMinute(LocalMinute(off, after));
    assert -MINUTES <= off(e) <= MINUTES && -MINUTES <= off(after) <= MINUTES;
  }

  // ----- what the day fields mean -----

  /** A field that lists its whole range restricts nothing. */
  predicate Lists(values: seq<int>, min: int, max: int) {
    forall v :: min <= v <= max ==> v in values
  }

  lemma {:induction false} ListsByLength(values: seq<int>, min: int, max: int)
    requires min <= max + 1 && Ascending(values) && forall v :: v in values ==> min <= v <= max
    ensures |values| <= max - min + 1 && (|values| == max - min + 1 <==> Lists(values, min, max))
    decreases max - min + 1
  {
    assert values == [] || values[|values| - 1] in values;
    if max < min {
      assert values == [];
    } else if values != [] && values[|values| - 1] == max {
      var rest := values[..|values| - 1];
      forall v ensures v in values <==> v in rest || v == max {
        if v in values {
          var i :| 0 <= i < |values| && values[i] == v;
          assert i < |rest| ==> rest[i] == v;
        }
      }
      forall v | v in rest ensures min <= v <= max - 1 {
        var i :| 0 <= i < |rest| && rest[i] == v;
        assert values[i] < values[|values| - 1] && values[i] in values;
      }
      ListsByLength(rest, min, max - 1);
    } else {
      forall v | v in values ensures min <= v <= max - 1 {
        var i :| 0 <= i < |values| && values[i] == v;
        assert i < |values| - 1 ==> values[i] < values[|values| - 1];
      }
      ListsByLength(values, min, max - 1);
      assert max !in values;
    }
  }

  /**
   The days a schedule names: one of its months, and the day of the month and the day
   of the week where at most one of the two is restricted, either of them where both are.
   */
  ghost predicate OnDay(s: Schedule, c: Civil, weekday: int) {
    && c.month in s.month
    && if Lists(s.dayOfMonth, 1, 31) || Lists(s.dayOfWeek, 0, 6) then c.day in s.dayOfMonth && weekday in s.dayOfWeek
       else c.day in s.dayOfMonth || weekday in s.dayOfWeek
  }

  lemma MatchesItsDays(s: Schedule, c: Civil, weekday: int)
    requires WellFormed(s) && Valid(c) && 0 <= weekday <= 6
    ensures MatchesDay(s, c, weekday) <==> OnDay(s, c, weekday)
  {
    ListsByLength(s.dayOfMonth, 1, 31);
    ListsByLength(s.dayOfWeek, 0, 6);
    assert 1 <= c.day <= 31;
    hide WellFormed;
  }

  /** Dates whose day of the week is known: a Thursday, a Saturday and a Friday. */
  lemma KnownWeekdays()
    ensures Weekday(DayNumber(1970, 1, 1)) == 4 && Weekday(DayNumber(2000, 1, 1)) == 6 && Weekday(DayNumber(2024, 1, 5)) == 5
    ensures forall day :: Weekday(day + 1) == (Weekday(day) + 1) % 7
  {
  }

  /** The local minute `l` is one the expression names, by its date, its weekday and its time. */
  ghost predicate Named(s: Schedule, l: int) {
    && OnDay(s, CivilOf(DayOf(l)), Weekday(DayOf(l)))
    && HourOf(l) in s.hour && MinuteOf(l) in s.minute
  }

  lemma MatchesNamed(s: Schedule, l: int)
    requires WellFormed(s)
    ensures MatchesMinute(s, l) <==> Named(s, l)
  {
    DayNumberOfCivil(DayOf(l));
    MatchesItsDays(s, CivilOf(DayOf(l)), Weekday(DayOf(l)));
    hide MatchesDay, OnDay, WellFormed, CivilOf;
  }

  /**
   The answer's wall clock is one the expression names, in any time zone; at a fixed
   offset it is the first such after the reference.
   */
  lemma AnswerIsNamed(s: Schedule, after: int, off: Offset, l: int, r: int)
    requires WellFormed(s) && FirstFire(s, after, off, l, r)
    ensures r > after && r % MS == 0 && Named(s, LocalMinute(off, r))
    ensures forall k | Fixed(off, k) :: forall e :: after < e < r && e % MS == 0 ==> !Named(s, LocalMinute(off, e))
  {
    AnswerIsSound(s, after, off, l, r);
    MatchesNamed(s, l);
    forall k, e | Fixed(off, k) && after < e < r && e % MS == 0 ensures !Named(s, LocalMinute(off, e)) {
      AnswerIsLeast(s, after, off, k, l, r);
      MatchesNamed(s, LocalMinute(off, e));
      assert !Due(s, k, e);
    }
    hide FirstFire, Named, MatchesMinute, WellFormed;
  }

  function EveryDay(): seq<int> {
    seq(31, i => i + 1)
  }

  function EveryWeekday(): seq<int> {
    seq(7, i => i)
  }

  lemma Every()
    ensures Lists(EveryDay(), 1, 31) && Lists(EveryWeekday(), 0, 6)
  {
    forall v | 1 <= v <= 31 ensures v in EveryDay() {
      assert EveryDay()[v - 1] == v;
    }
    forall v | 0 <= v <= 6 ensures v in EveryWeekday() {
      assert EveryWeekday()[v] == v;
    }
  }

  /** With both day fields restricted, a minute may be answered with exactly when it may under one of them alone. */
  lemma EitherFires(s: Schedule, after: int, off: Offset, l: int)
    requires WellFormed(s) && !Lists(s.dayOfMonth, 1, 31) && !Lists(s.dayOfWeek, 0, 6)
    ensures Fires(s, after, off, l) <==> Fires(s.(dayOfWeek := EveryWeekday()), after, off, l) || Fires(s.(dayOfMonth := EveryDay()), after, off, l)
  {
    var byDay, byWeekday := s.(dayOfWeek := EveryWeekday()), s.(dayOfMonth := EveryDay());
    Every();
    RestrictedByOne(s);
    MatchesNamed(s, l);
    MatchesNamed(byDay, l);
    MatchesNamed(byWeekday, l);
    DayNumberOfCivil(DayOf(l));
    hide EpochOf, MatchesMinute, LocalMinute, CivilOf, WellFormed, EveryDay, EveryWeekday, Lists, HourOf, MinuteOf, DayOf;
    ListedDay(CivilOf(DayOf(l)), Weekday(DayOf(l)));
  }

  lemma RestrictedByOne(s: Schedule)
    requires WellFormed(s)
    ensures WellFormed(s.(dayOfWeek := EveryWeekday())) && WellFormed(s.(dayOfMonth := EveryDay()))
  {
  }

  lemma ListedDay(c: Civil, weekday: int)
    requires Valid(c) && 0 <= weekday <= 6
    ensures c.day in EveryDay() && weekday in EveryWeekday()
  {
    assert EveryDay()[c.day - 1] == c.day && EveryWeekday()[weekday] == weekday;
  }

  /**
   Two restricted day fields are alternatives: the answer is the first of the answers
   by the day of the month alone and by the day of the week alone, and there is none
   exactly when neither has one.
   */
  lemma DayFieldsAreAlternatives(s: Schedule, after: int, off: Offset, l: int, r: int)
    requires WellFormed(s) && !Lists(s.dayOfMonth, 1, 31) && !Lists(s.dayOfWeek, 0, 6)
    ensures var byDay, byWeekday := s.(dayOfWeek := EveryWeekday()), s.(dayOfMonth := EveryDay());
      FirstFire(s, after, off, l, r) <==>
        || (FirstFire(byDay, after, off, l, r) && forall x :: x < l ==> !Fires(byWeekday, after, off, x))
        || (FirstFire(byWeekday, after, off, l, r) && forall x :: x < l ==> !Fires(byDay, after, off, x))
    ensures var byDay, byWeekday := s.(dayOfWeek := EveryWeekday()), s.(dayOfMonth := EveryDay());
      (forall x :: !Fires(s, after, off, x)) <==>
        (forall x :: !Fires(byDay, after, off, x)) && (forall x :: !Fires(byWeekday, after, off, x))
  {
    forall x
      ensures Fires(s, after, off, x) <==> Fires(s.(dayOfWeek := EveryWeekday()), after, off, x) || Fires(s.(dayOfMonth := EveryDay()), after, off, x)
    {
      EitherFires(s, after, off, x);
    }
    hide Fires, EveryDay, EveryWeekday, WellFormed, Lists, EpochOf;
  }

  /** At a fixed offset that is the lesser of the two answers. */
  lemma LesserOfTwo(s: Schedule, after: int, off: Offset, k: int, l: int, r: int, ld: int, rd: int, lw: int, rw: int)
    requires WellFormed(s) && !Lists(s.dayOfMonth, 1, 31) && !Lists(s.dayOfWeek, 0, 6) && Fixed(off, k)
    requires FirstFire(s, after, off, l, r)
    requires FirstFire(s.(dayOfWeek := EveryWeekday()), after, off, ld, rd) && FirstFire(s.(dayOfMonth := EveryDay()), after, off, lw, rw)
    ensures r == if rd <= rw then rd else rw
  {
    hide Fires, EveryDay, EveryWeekday, WellFormed, Lists, EpochOf;
    DayFieldsAreAlternatives(s, after, off, l, r);
    FixedFires(s, after, off, k, ld);
    FixedFires(s, after, off, k, lw);
    FixedFires(s, after, off, k, l);
  }
}
