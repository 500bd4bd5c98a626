/**
 * Promotion schedules in a zone with a fixed offset: when a rule is active, and the timer that says when
 * that may next change. Instants are milliseconds since 1970, offsets whole seconds.
 */
module Schedule {
  import opened Common
  import opened Calendar

  /** Minutes are 0 to 1439; an end at or before the start means the window crosses midnight. */
  datatype Rule = Rule(days: set<int>, startTime: int, endTime: int, startDate: Option<Ymd>, endDate: Option<Ymd>)

  datatype Zone = Zone(offset: int)

  const MINUTE_MS: int := 60000
  const DAY_MS: int := 86400000

  predicate ValidRuleDate(d: Option<Ymd>) { d.Some? ==> ValidDate(d.value) && 0 <= d.value.year <= 9999 }

  predicate ValidRule(r: Rule)
  {
    0 <= r.startTime < 1440 && 0 <= r.endTime < 1440 && ValidRuleDate(r.startDate) && ValidRuleDate(r.endDate)
  }

  // ---------------------------------------------------------------- instants and wall clocks

  /** Milliseconds on the zone's wall clock since midnight of day 0. */
  function Local(t: int, z: Zone): int { t + 1000 * z.offset + UNIX_DAY * DAY_MS }

  function DayAt(t: int, z: Zone): int { Local(t, z) / DAY_MS }

  function MinuteAt(t: int, z: Zone): int { Local(t, z) % DAY_MS / MINUTE_MS }

  const FIRST_DAY: int := BeforeYear(100)

  /** From the year 100 on, where four-digit years and Date.UTC agree. */
  predicate InRange(t: int, z: Zone) { FIRST_DAY <= DayAt(t, z) }

  function Today(t: int, z: Zone): Ymd
    requires InRange(t, z)
  {
    DateOf(DayAt(t, z))
  }

  /** Date.UTC takes a year below 100 as 1900 and something. */
  function UtcDay(d: Ymd): int
    requires 1 <= d.month <= 12
  {
    DayOf(if 0 <= d.year < 100 then d.(year := d.year + 1900) else d)
  }

  /** The instant at which the zone's wall clock shows this minute of this date. */
  function ZonedInstant(day: int, minute: int, z: Zone): int
  {
    (day - UNIX_DAY) * DAY_MS + minute * MINUTE_MS - 1000 * z.offset
  }

  lemma SplitDay(d: int, r: int)
    requires 0 <= r < DAY_MS
    ensures (d * DAY_MS + r) / DAY_MS == d && (d * DAY_MS + r) % DAY_MS == r
  {
  }

  /** Reading the wall clock at a zoned instant gives back its day and minute, at its first millisecond. */
  lemma InstantRoundTrip(day: int, minute: int, z: Zone)
    requires 0 <= minute < 1440
    ensures var t := ZonedInstant(day, minute, z);
            DayAt(t, z) == day && MinuteAt(t, z) == minute && Local(t, z) == day * DAY_MS + minute * MINUTE_MS
  {
    SplitDay(day, minute * MINUTE_MS);
  }

  /** Instants count from midnight of 1 January 1970 in UTC, and a zone further east reads its clock earlier. */
  lemma InstantsCountFromEpoch(day: int, minute: int, z: Zone)
    ensures ZonedInstant(DayOf(Ymd(1970, 1, 1)), 0, Zone(0)) == 0
    ensures ZonedInstant(day, minute, z) == 86400000 * (day - DayOf(Ymd(1970, 1, 1))) + 60000 * minute - 1000 * z.offset
  {
  }

  // ---------------------------------------------------------------- activeness

  predicate Started(r: Rule, date: Ymd) { r.startDate.Some? ==> Comparable(r.startDate.value) <= Comparable(date) }

  predicate NotEnded(r: Rule, date: Ymd) { r.endDate.Some? ==> Comparable(date) <= Comparable(r.endDate.value) }

  predicate CrossesMidnight(r: Rule) { r.endTime <= r.startTime }

  predicate InWindow(r: Rule, weekday: int, minute: int)
  {
    if !CrossesMidnight(r) then weekday in r.days && r.startTime <= minute < r.endTime
    else (weekday in r.days && r.startTime <= minute) || ((weekday + 6) % 7 in r.days && minute < r.endTime)
  }

  /** isScheduleActiveAt */
  predicate ActiveAt(r: Rule, t: int, z: Zone)
    requires InRange(t, z)
  {
    r.startTime != r.endTime && Started(r, Today(t, z)) && NotEnded(r, Today(t, z))
    && InWindow(r, Weekday(DayAt(t, z)), MinuteAt(t, z))
  }

  // ---------------------------------------------------------------- the moments at which it may change

  /** A wall-clock minute on a matched weekday, or on the day after one. */
  predicate Occurs(r: Rule, t: int, z: Zone, minute: int, shift: int)
  {
    Local(t, z) % DAY_MS == minute * MINUTE_MS && Weekday(DayAt(t, z) - shift) in r.days
  }

  function Shift(r: Rule): int { if CrossesMidnight(r) then 1 else 0 }

  predicate StartDateMoment(r: Rule, t: int, z: Zone)
  {
    r.startDate.Some? && 1 <= r.startDate.value.month <= 12 && t == ZonedInstant(UtcDay(r.startDate.value), 0, z)
  }

  predicate EndDateMoment(r: Rule, t: int, z: Zone)
  {
    r.endDate.Some? && 1 <= r.endDate.value.month <= 12 && t == ZonedInstant(UtcDay(r.endDate.value) + 1, 0, z)
  }

  predicate Moment(r: Rule, t: int, z: Zone)
  {
    Occurs(r, t, z, r.startTime, 0) || Occurs(r, t, z, r.endTime, Shift(r)) || StartDateMoment(r, t, z)
    || EndDateMoment(r, t, z)
  }

  /** One millisecond on: the same minute of the same day, the next minute, or the next midnight. */
  lemma OneMs(t: int, z: Zone)
    ensures Local(t + 1, z) % DAY_MS != 0 ==>
              DayAt(t + 1, z) == DayAt(t, z) && Local(t + 1, z) % DAY_MS == Local(t, z) % DAY_MS + 1
    ensures Local(t + 1, z) % DAY_MS == 0 ==>
              DayAt(t + 1, z) == DayAt(t, z) + 1 && MinuteAt(t, z) == 1439 && MinuteAt(t + 1, z) == 0
    ensures 0 <= MinuteAt(t, z) < 1440
  {
    var l := Local(t, z);
    assert Local(t + 1, z) == l + 1;
    var d, s := l / DAY_MS, l % DAY_MS;
    assert l == d * DAY_MS + s;
    if s + 1 < DAY_MS {
      SplitDay(d, s + 1);
    } else {
      SplitDay(d + 1, 0);
    }
  }

  lemma MinuteSteps(s: int)
    requires 0 <= s
    ensures (s + 1) / MINUTE_MS == s / MINUTE_MS
            || ((s + 1) / MINUTE_MS == s / MINUTE_MS + 1 && s + 1 == (s + 1) / MINUTE_MS * MINUTE_MS)
  {
  }

  lemma SameDayWindow(r: Rule, t: int, z: Zone)
    requires ValidRule(r) && Local(t + 1, z) % DAY_MS != 0 && !Moment(r, t + 1, z)
    ensures r.startTime != r.endTime ==>
              (InWindow(r, Weekday(DayAt(t, z)), MinuteAt(t, z))
               <==> InWindow(r, Weekday(DayAt(t + 1, z)), MinuteAt(t + 1, z)))
  {
    OneMs(t, z);
    MinuteSteps(Local(t, z) % DAY_MS);
    assert Weekday(DayAt(t, z) - 1) == (Weekday(DayAt(t, z)) + 6) % 7;
  }

  lemma MidnightWindow(r: Rule, t: int, z: Zone)
    requires ValidRule(r) && Local(t + 1, z) % DAY_MS == 0 && !Moment(r, t + 1, z)
    ensures r.startTime != r.endTime ==>
              (InWindow(r, Weekday(DayAt(t, z)), MinuteAt(t, z))
               <==> InWindow(r, Weekday(DayAt(t + 1, z)), MinuteAt(t + 1, z)))
  {
    OneMs(t, z);
    assert Weekday(DayAt(t + 1, z) - 1) == Weekday(DayAt(t, z));
    assert (Weekday(DayAt(t + 1, z)) + 6) % 7 == Weekday(DayAt(t, z));
  }

  /** Rule dates below the year 100 lie before every instant in range. */
  lemma DateAgainstToday(d: Ymd, t: int, z: Zone)
    requires InRange(t, z) && ValidDate(d) && 0 <= d.year
    ensures Comparable(d) <= Comparable(Today(t, z)) <==> d.year < 100 || UtcDay(d) <= DayAt(t, z)
    ensures Comparable(Today(t, z)) <= Comparable(d) <==> 100 <= d.year && DayAt(t, z) <= UtcDay(d)
  {
    var day := DayAt(t, z);
    RangeIsPositive();
    DateRoundTrip(day);
    ComparableIsDayOrder(d, DateOf(day));
    if d.year < 100 {
      DateBefore(d);
    }
  }

  lemma RangeIsPositive()
    ensures 0 < FIRST_DAY
  {
  }

  lemma DateBefore(d: Ymd)
    requires ValidDate(d) && d.year < 100
    ensures DayOf(d) < FIRST_DAY
  {
    YearIsTwelveMonths(d.year);
    MonthsGrow(d.year, d.month, 13);
    if d.year < 99 {
      YearsGrow(d.year, 100);
    } else {
      NextYear(99);
    }
  }

  /** The next day, at its midnight, or the same day. */
  predicate DaySteps(t: int, z: Zone)
  {
    DayAt(t + 1, z) == DayAt(t, z)
    || (DayAt(t + 1, z) == DayAt(t, z) + 1 && t + 1 == ZonedInstant(DayAt(t + 1, z), 0, z))
  }

  lemma StartHolds(d: Ymd, t: int, z: Zone)
    requires ValidDate(d) && 0 <= d.year && InRange(t, z) && InRange(t + 1, z) && DaySteps(t, z)
    requires t + 1 != ZonedInstant(UtcDay(d), 0, z)
    ensures Comparable(d) <= Comparable(Today(t, z)) <==> Comparable(d) <= Comparable(Today(t + 1, z))
  {
    DateAgainstToday(d, t, z);
    DateAgainstToday(d, t + 1, z);
  }

  lemma EndHolds(d: Ymd, t: int, z: Zone)
    requires ValidDate(d) && 0 <= d.year && InRange(t, z) && InRange(t + 1, z) && DaySteps(t, z)
    requires t + 1 != ZonedInstant(UtcDay(d) + 1, 0, z)
    ensures Comparable(Today(t, z)) <= Comparable(d) <==> Comparable(Today(t + 1, z)) <= Comparable(d)
  {
    DateAgainstToday(d, t, z);
    DateAgainstToday(d, t + 1, z);
  }

  lemma StepsByDay(t: int, z: Zone)
    ensures DaySteps(t, z)
  {
    OneMs(t, z);
    MidnightIs(t + 1, z);
  }

  /** At a midnight that is neither edge of the dates, the dates still say the same. */
  lemma DatesHold(r: Rule, t: int, z: Zone)
    requires ValidRule(r) && InRange(t, z) && InRange(t + 1, z) && !StartDateMoment(r, t + 1, z)
             && !EndDateMoment(r, t + 1, z)
    ensures Started(r, Today(t, z)) <==> Started(r, Today(t + 1, z))
    ensures NotEnded(r, Today(t, z)) <==> NotEnded(r, Today(t + 1, z))
  {
    StepsByDay(t, z);
    if r.startDate.Some? {
      StartHolds(r.startDate.value, t, z);
    }
    if r.endDate.Some? {
      EndHolds(r.endDate.value, t, z);
    }
  }

  lemma MidnightIs(t: int, z: Zone)
    ensures Local(t, z) % DAY_MS == 0 ==> t == ZonedInstant(DayAt(t, z), 0, z)
  {
  }

  lemma OneStep(r: Rule, t: int, z: Zone)
    requires ValidRule(r) && InRange(t, z) && !Moment(r, t + 1, z)
    ensures InRange(t + 1, z) && (ActiveAt(r, t, z) <==> ActiveAt(r, t + 1, z))
  {
    OneMs(t, z);
    DatesHold(r, t, z);
    if Local(t + 1, z) % DAY_MS == 0 {
      MidnightWindow(r, t, z);
    } else {
      SameDayWindow(r, t, z);
    }
  }

  /** No moment after `at` up to and including `t`. */
  ghost predicate Still(r: Rule, at: int, t: int, z: Zone) { forall u :: at < u <= t ==> !Moment(r, u, z) }

  /** Between two moments nothing changes. */
  lemma {:induction false} ConstantBetween(r: Rule, at: int, t: int, z: Zone)
    requires ValidRule(r) && InRange(at, z) && at <= t
    requires Still(r, at, t, z)
    ensures InRange(t, z) && (ActiveAt(r, t, z) <==> ActiveAt(r, at, z))
    decreases t - at
  {
    if at < t {
      ConstantBetween(r, at, t - 1, z);
      OneStep(r, t - 1, z);
    }
  }

  // ---------------------------------------------------------------- the timer

  /** The first moment after `at`, or none at all. */
  ghost predicate FirstMoment(r: Rule, at: int, z: Zone, next: Option<int>)
  {
    match next
    case Some(n) => at < n && Moment(r, n, z) && forall u :: at < u < n ==> !Moment(r, u, z)
    case None => forall u :: at < u ==> !Moment(r, u, z)
  }

  predicate NeverAgain(r: Rule, at: int, z: Zone)
    requires InRange(at, z)
  {
    r.days == {} || r.startTime == r.endTime || !NotEnded(r, Today(at, z))
  }

  /** The first of the rule's occurrences of a minute after `at`. */
  ghost predicate FirstOccurrence(r: Rule, at: int, z: Zone, minute: int, shift: int, next: Option<int>)
  {
    match next
    case Some(n) =>
      at < n && Occurs(r, n, z, minute, shift) && forall u :: at < u < n ==> !Occurs(r, u, z, minute, shift)
    case None => forall u :: !Occurs(r, u, z, minute, shift)
  }

  lemma OccursOn(r: Rule, u: int, z: Zone, minute: int, shift: int)
    requires Occurs(r, u, z, minute, shift)
    ensures u == ZonedInstant(DayAt(u, z), minute, z)
  {
  }

  lemma NotBeforeToday(at: int, u: int, z: Zone)
    requires at < u
    ensures DayAt(at, z) <= DayAt(u, z)
  {
  }

  lemma AfterToday(at: int, day: int, minute: int, z: Zone)
    requires 0 <= minute && DayAt(at, z) < day
    ensures at < ZonedInstant(day, minute, z)
  {
  }

  /** The start day `k` days from today has no weekday of the rule, or its minute has passed. */
  predicate InVain(r: Rule, at: int, z: Zone, minute: int, shift: int, k: int)
  {
    Weekday(DayAt(at, z) + k) in r.days ==> ZonedInstant(DayAt(at, z) + k + shift, minute, z) <= at
  }

  /** A start day tried in vain has no occurrence after `at`. */
  lemma InVainIsOver(r: Rule, at: int, z: Zone, minute: int, shift: int, u: int)
    requires at < u && InVain(r, at, z, minute, shift, DayAt(u, z) - shift - DayAt(at, z))
    ensures !Occurs(r, u, z, minute, shift)
  {
    var k := DayAt(u, z) - shift - DayAt(at, z);
    assert DayAt(at, z) + k == DayAt(u, z) - shift && DayAt(at, z) + k + shift == DayAt(u, z);
    if Occurs(r, u, z, minute, shift) {
      OccursOn(r, u, z, minute, shift);
    }
  }

  /** Having looked at every start day before `offset` in vain, the one found is the first. */
  lemma FoundFirst(r: Rule, at: int, z: Zone, minute: int, shift: int, offset: int)
    requires 0 <= minute < 1440 && 0 <= shift <= 1 && -shift <= offset
    requires Weekday(DayAt(at, z) + offset) in r.days
    requires at < ZonedInstant(DayAt(at, z) + offset + shift, minute, z)
    requires forall k :: -shift <= k < offset ==> InVain(r, at, z, minute, shift, k)
    ensures FirstOccurrence(r, at, z, minute, shift, Some(ZonedInstant(DayAt(at, z) + offset + shift, minute, z)))
  {
    var day := DayAt(at, z) + offset + shift;
    var n := ZonedInstant(day, minute, z);
    InstantRoundTrip(day, minute, z);
    SplitDay(day, minute * MINUTE_MS);
    forall u | at < u < n ensures !Occurs(r, u, z, minute, shift) {
      NotBeforeToday(at, u, z);
      if DayAt(u, z) < day {
        InVainIsOver(r, at, z, minute, shift, u);
      } else {
        NotYet(r, u, z, minute, shift, day);
      }
    }
  }

  lemma NotYet(r: Rule, u: int, z: Zone, minute: int, shift: int, day: int)
    requires u < ZonedInstant(day, minute, z) && day <= DayAt(u, z)
    ensures !Occurs(r, u, z, minute, shift)
  {
    assert ZonedInstant(day, minute, z) <= ZonedInstant(DayAt(u, z), minute, z);
  }

  /** A day ahead tried in vain is on no weekday of the rule. */
  lemma AheadInVain(r: Rule, at: int, z: Zone, minute: int, shift: int, k: int)
    requires 0 <= minute && 0 <= shift && 1 <= k && InVain(r, at, z, minute, shift, k)
    ensures Weekday(DayAt(at, z) + k) !in r.days
  {
    AfterToday(at, DayAt(at, z) + k + shift, minute, z);
  }

  /** Eight days without a matched weekday mean there is none. */
  lemma FoundNone(r: Rule, at: int, z: Zone, minute: int, shift: int)
    requires 0 <= minute < 1440 && 0 <= shift <= 1
    requires forall k :: -shift <= k <= 7 ==> InVain(r, at, z, minute, shift, k)
    ensures FirstOccurrence(r, at, z, minute, shift, None)
  {
    forall u ensures !Occurs(r, u, z, minute, shift) {
      var k := (DayAt(u, z) - shift - DayAt(at, z) - 1) % 7 + 1;
      assert Weekday(DayAt(at, z) + k) == Weekday(DayAt(u, z) - shift);
      AheadInVain(r, at, z, minute, shift, k);
    }
  }

  lemma WeekdayAhead(day: int, offset: int)
    ensures (Weekday(day) + offset + 7) % 7 == Weekday(day + offset)
  {
  }

  /** The loop over start days, from yesterday's where the window ends on the day after. */
  method NextOccurrence(r: Rule, at: int, z: Zone, minute: int, shift: int) returns (next: Option<int>)
    requires InRange(at, z) && 0 <= minute < 1440 && 0 <= shift <= 1
    ensures FirstOccurrence(r, at, z, minute, shift, next)
  {
    var today := DayAt(at, z);
    var offset := -shift;
    while offset <= 7
      invariant -shift <= offset <= 8
      invariant forall k :: -shift <= k < offset ==> InVain(r, at, z, minute, shift, k)
    {
      WeekdayAhead(today, offset);
      if (Weekday(today) + offset + 7) % 7 in r.days {
        var instant := ZonedInstant(today + offset + shift, minute, z);
        if at < instant {
          FoundFirst(r, at, z, minute, shift, offset);
          return Some(instant);
        }
      }
      assert InVain(r, at, z, minute, shift, offset);
      offset := offset + 1;
    }
    FoundNone(r, at, z, minute, shift);
    next := None;
  }

  function Earlier(a: Option<int>, b: Option<int>): Option<int>
  {
    if a.None? then b else if b.None? then a else if b.value < a.value then b else a
  }

  function IfLater(at: int, t: int): Option<int> { if at < t then Some(t) else None }

  /** The edges of the rule's dates that lie ahead. */
  function StartEdge(r: Rule, at: int, z: Zone): Option<int>
    requires ValidRule(r)
  {
    if r.startDate.Some? then IfLater(at, ZonedInstant(UtcDay(r.startDate.value), 0, z)) else None
  }

  function EndEdge(r: Rule, at: int, z: Zone): Option<int>
    requires ValidRule(r)
  {
    if r.endDate.Some? then IfLater(at, ZonedInstant(UtcDay(r.endDate.value) + 1, 0, z)) else None
  }

  /** The earliest of the four is the first moment. */
  lemma EarliestIsFirst(r: Rule, at: int, z: Zone, start: Option<int>, end: Option<int>)
    requires ValidRule(r)
    requires FirstOccurrence(r, at, z, r.startTime, 0, start) && FirstOccurrence(r, at, z, r.endTime, Shift(r), end)
    ensures FirstMoment(r, at, z, Earlier(Earlier(Earlier(start, end), StartEdge(r, at, z)), EndEdge(r, at, z)))
  {
    var next := Earlier(Earlier(Earlier(start, end), StartEdge(r, at, z)), EndEdge(r, at, z));
    forall u | at < u && (next.Some? ==> u < next.value) ensures !Moment(r, u, z) {
      assert !Occurs(r, u, z, r.startTime, 0);
      assert !Occurs(r, u, z, r.endTime, Shift(r));
    }
  }

  method NextScheduleBoundary(r: Rule, at: int, z: Zone) returns (next: Option<int>)
    requires ValidRule(r) && InRange(at, z)
    ensures NeverAgain(r, at, z) ==> next == None
    ensures !NeverAgain(r, at, z) ==> FirstMoment(r, at, z, next)
  {
    if r.days == {} || r.startTime == r.endTime {
      return None;
    }
    if r.endDate.Some? && Comparable(r.endDate.value) < Comparable(Today(at, z)) {
      return None;
    }
    var start := NextOccurrence(r, at, z, r.startTime, 0);
    var end := NextOccurrence(r, at, z, r.endTime, Shift(r));
    EarliestIsFirst(r, at, z, start, end);
    next := Earlier(start, end);
    if r.startDate.Some? {
      next := Earlier(next, IfLater(at, ZonedInstant(UtcDay(r.startDate.value), 0, z)));
    }
    if r.endDate.Some? {
      next := Earlier(next, IfLater(at, ZonedInstant(UtcDay(r.endDate.value) + 1, 0, z)));
    }
  }

  /** What is over stays over. */
  lemma {:induction false} NeverActive(r: Rule, at: int, t: int, z: Zone)
    requires ValidRule(r) && InRange(at, z) && at <= t && NeverAgain(r, at, z)
    ensures InRange(t, z) && !ActiveAt(r, t, z)
  {
    if at < t {
      NotBeforeToday(at, t, z);
    }
    if r.endDate.Some? {
      DateAgainstToday(r.endDate.value, at, z);
      DateAgainstToday(r.endDate.value, t, z);
    }
  }

  /** What the timer promises about activeness. */
  ghost predicate SoundBoundary(r: Rule, at: int, z: Zone, next: Option<int>)
  {
    && (next.Some? ==> at < next.value)
    && forall t :: at <= t && (next.Some? ==> t < next.value) ==>
         InRange(at, z) && InRange(t, z) && (ActiveAt(r, t, z) <==> ActiveAt(r, at, z))
  }

  /**
   * Boundary soundness: the boundary is strictly later and nothing changes before it; where there is none,
   * nothing changes any more. Cross-midnight windows, weekdays and date limits included.
   */
  lemma BoundaryIsSound(r: Rule, at: int, z: Zone, next: Option<int>)
    requires ValidRule(r) && InRange(at, z)
    requires if NeverAgain(r, at, z) then next == None else FirstMoment(r, at, z, next)
    ensures SoundBoundary(r, at, z, next)
  {
    forall t | at <= t && (next.Some? ==> t < next.value)
      ensures InRange(t, z) && (ActiveAt(r, t, z) <==> ActiveAt(r, at, z))
    {
      if NeverAgain(r, at, z) {
        NeverActive(r, at, t, z);
        NeverActive(r, at, at, z);
      } else {
        assert Still(r, at, t, z);
        ConstantBetween(r, at, t, z);
      }
    }
  }

  // ---------------------------------------------------------------- what being active means

  /** From the first millisecond of the start date to the last of the end date, on the zone's calendar. */
  predicate WithinDates(r: Rule, t: int, z: Zone)
    requires ValidRule(r)
  {
    && (r.startDate.Some? ==> ZonedInstant(DayOf(r.startDate.value), 0, z) <= t)
    && (r.endDate.Some? ==> t < ZonedInstant(DayOf(r.endDate.value) + 1, 0, z))
  }

  /** The window that opens on this day: it ends the same day, or the day after when its end is before its start. */
  predicate WindowOf(r: Rule, day: int, t: int, z: Zone)
  {
    var last := if r.endTime < r.startTime then day + 1 else day;
    ZonedInstant(day, r.startTime, z) <= t < ZonedInstant(last, r.endTime, z)
  }

  /** Some day of a chosen weekday has its window open. */
  ghost predicate InSomeWindow(r: Rule, t: int, z: Zone)
  {
    exists day :: Weekday(day) in r.days && WindowOf(r, day, t, z)
  }

  lemma DayBounds(day: int, t: int, z: Zone)
    ensures ZonedInstant(day, 0, z) <= t <==> day <= DayAt(t, z)
  {
    var l := Local(t, z);
    assert l == l / DAY_MS * DAY_MS + l % DAY_MS;
    assert ZonedInstant(day, 0, z) <= t <==> day * DAY_MS <= l;
  }

  lemma MinuteBounds(day: int, minute: int, t: int, z: Zone)
    requires 0 <= minute < 1440
    ensures ZonedInstant(day, minute, z) <= t <==> day < DayAt(t, z) || (day == DayAt(t, z) && minute <= MinuteAt(t, z))
  {
    var l := Local(t, z);
    var s := l % DAY_MS;
    assert l == l / DAY_MS * DAY_MS + s;
    assert ZonedInstant(day, minute, z) <= t <==> day * DAY_MS + minute * MINUTE_MS <= l;
    assert minute * MINUTE_MS <= s <==> minute <= s / MINUTE_MS;
  }

  lemma DatesMean(r: Rule, t: int, z: Zone)
    requires ValidRule(r) && InRange(t, z)
    ensures Started(r, Today(t, z)) && NotEnded(r, Today(t, z)) <==> WithinDates(r, t, z)
  {
    var today := DayAt(t, z);
    RangeIsPositive();
    DateRoundTrip(today);
    if r.startDate.Some? {
      ComparableIsDayOrder(r.startDate.value, DateOf(today));
      DayBounds(DayOf(r.startDate.value), t, z);
    }
    if r.endDate.Some? {
      ComparableIsDayOrder(DateOf(today), r.endDate.value);
      DayBounds(DayOf(r.endDate.value) + 1, t, z);
    }
  }

  /** A window that is open now opened today, or yesterday when it crosses midnight. */
  lemma OpenWindow(r: Rule, day: int, t: int, z: Zone)
    requires ValidRule(r)
    ensures WindowOf(r, day, t, z)
            <==> r.startTime != r.endTime
                 && if !CrossesMidnight(r) then day == DayAt(t, z) && r.startTime <= MinuteAt(t, z) < r.endTime
                    else (day == DayAt(t, z) && r.startTime <= MinuteAt(t, z))
                         || (day == DayAt(t, z) - 1 && MinuteAt(t, z) < r.endTime)
  {
    MinuteBounds(day, r.startTime, t, z);
    MinuteBounds(if r.endTime < r.startTime then day + 1 else day, r.endTime, t, z);
  }

  lemma TheDayBefore(day: int)
    ensures Weekday(day - 1) == (Weekday(day) + 6) % 7
  {
  }

  /** The test of weekday and minute says whether some window is open. */
  lemma WindowsMean(r: Rule, t: int, z: Zone)
    requires ValidRule(r)
    ensures InSomeWindow(r, t, z) <==> r.startTime != r.endTime && InWindow(r, Weekday(DayAt(t, z)), MinuteAt(t, z))
  {
    var today := DayAt(t, z);
    TheDayBefore(today);
    OpenWindow(r, today, t, z);
    OpenWindow(r, today - 1, t, z);
    if day :| Weekday(day) in r.days && WindowOf(r, day, t, z) {
      OpenWindow(r, day, t, z);
    }
  }

  /**
   * When a rule is active: exactly from the start of its start date to the end of its end date, while the window
   * of some day of a chosen weekday is open; a window that ends before it starts ends on the day after, and one
   * that ends when it starts is never open.
   */
  lemma ActiveExactly(r: Rule, t: int, z: Zone)
    requires ValidRule(r) && InRange(t, z)
    ensures ActiveAt(r, t, z) <==> WithinDates(r, t, z) && InSomeWindow(r, t, z)
  {
    DatesMean(r, t, z);
    WindowsMean(r, t, z);
  }
}
