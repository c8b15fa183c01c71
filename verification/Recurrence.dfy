/** Schedule recurrence: wall-clock occurrences and the search for the ones around an instant.

    Instants and wall-clock readings are integers in microseconds. A wall reading is the local
    date (`wall / DAY`) and the time of day (`wall % DAY`). */
module Recurrence {
  import opened Prelude
  import Calendar
  import T = Timelines

  const DAY: int := 86_400_000_000

  datatype Frequency = Daily | Weekly | Monthly | Quarterly

  /** `at` is the offset in force at an instant; `wall` is the offset used to read a wall-clock
      time back, which picks the first reading of a repeated hour and the earlier offset in a gap. */
  datatype Zone = Zone(west: int, at: int -> int, wall: int -> int)

  datatype Schedule = Schedule(frequency: Frequency, startsAt: int, endsAt: Option<int>, zone: Zone)

  /** Any two offsets of the zone differ by less than a day. */
  ghost predicate Narrow(z: Zone) {
    forall t :: z.west <= z.at(t) < z.west + DAY && z.west <= z.wall(t) < z.west + DAY
  }

  function Anchor(s: Schedule): int { s.startsAt + s.zone.at(s.startsAt) }

  /** The distance to occurrence `i`, in days for daily and weekly schedules and in months otherwise. */
  function Ahead(f: Frequency, i: int): int {
    match f case Daily => i case Weekly => 7 * i case Monthly => i case Quarterly => 3 * i
  }

  /** How many whole periods fit in a distance. */
  function Periods(f: Frequency, distance: int): int {
    match f case Daily => distance case Weekly => distance / 7 case Monthly => distance case Quarterly => distance / 3
  }

  predicate ByDays(f: Frequency) { f.Daily? || f.Weekly? }

  /** The local date of occurrence `i`. */
  function LocalDay(s: Schedule, i: int): int {
    var day := Anchor(s) / DAY;
    if ByDays(s.frequency) then day + Ahead(s.frequency, i)
    else Calendar.Clamped(Calendar.MonthOf(day) + Ahead(s.frequency, i), Calendar.DayOfMonth(day))
  }

  function Wall(s: Schedule, i: int): int { LocalDay(s, i) * DAY + Anchor(s) % DAY }

  function Occurrence(s: Schedule, i: int): int {
    if i == 0 then s.startsAt else Wall(s, i) - s.zone.wall(Wall(s, i))
  }

  /** The offset at which occurrence `i` is read. */
  function Offset(s: Schedule, i: int): int {
    if i == 0 then s.zone.at(s.startsAt) else s.zone.wall(Wall(s, i))
  }

  lemma OccurrenceIsWallMinusOffset(s: Schedule, i: int)
    ensures Occurrence(s, i) == Wall(s, i) - Offset(s, i)
  {
    hide Calendar.MonthStart, Calendar.MonthOf, Calendar.MonthDays;
    var day := Anchor(s) / DAY;
    if i == 0 && !ByDays(s.frequency) {
      Calendar.MonthStartNext(Calendar.MonthOf(day));
      assert Calendar.Clamped(Calendar.MonthOf(day), Calendar.DayOfMonth(day)) == day;
    }
  }

  /** `date` is in the month so many months after that of `day`, on the same day of the month or, if that month has no
      such day, on its last. */
  ghost predicate SameDayOfMonth(day: int, months: int, date: int) {
    exists m :: Calendar.MonthStart(m) <= day < Calendar.MonthStart(m + 1) && FallsIn(day - Calendar.MonthStart(m), m + months, date)
  }

  /** The day of month `k` so many days after its first, cut to the month. */
  ghost predicate FallsIn(days: int, k: int, date: int) {
    var first, next := Calendar.MonthStart(k), Calendar.MonthStart(k + 1);
    date == if first + days < next then first + days else next - 1
  }

  /** `date` lies `i` days, weeks, months or quarters after the first date. */
  ghost predicate Recurs(f: Frequency, first: int, i: int, date: int) {
    match f
    case Daily => date == first + i
    case Weekly => date == first + 7 * i
    case Monthly => SameDayOfMonth(first, i, date)
    case Quarterly => SameDayOfMonth(first, 3 * i, date)
  }

  /** A local time of day on a date, read back through the zone. */
  function ReadBack(s: Schedule, date: int, time: int): int { date * DAY + time - s.zone.wall(date * DAY + time) }

  /** Where occurrence `i` falls: at the anchor's local time of day, so many periods after the anchor's local date,
      and read back through the zone. The first occurrence is the anchor itself. */
  lemma OccurrenceFollowsTheCalendar(s: Schedule, i: nat) returns (date: int)
    ensures var local := s.startsAt + s.zone.at(s.startsAt);
            && Recurs(s.frequency, local / DAY, i, date)
            && Occurrence(s, i) == if i == 0 then s.startsAt else ReadBack(s, date, local % DAY)
  {
    DateRecurs(s, i);
    ReadsBack(s, i);
    hide Recurs, Occurrence, ReadBack, LocalDay;
    date := LocalDay(s, i);
  }

  lemma ReadsBack(s: Schedule, i: nat)
    ensures Occurrence(s, i) == if i == 0 then s.startsAt else ReadBack(s, LocalDay(s, i), Anchor(s) % DAY)
  {
    hide LocalDay, Anchor;
  }

  lemma DateRecurs(s: Schedule, i: nat)
    ensures Recurs(s.frequency, Anchor(s) / DAY, i, LocalDay(s, i))
  {
    hide SameDayOfMonth, Calendar.Clamped, Calendar.MonthOf, Calendar.DayOfMonth, Anchor;
    DateFollowsTheMonth(Anchor(s) / DAY, Ahead(s.frequency, i));
  }

  lemma DateFollowsTheMonth(day: int, months: int)
    ensures SameDayOfMonth(day, months, Calendar.Clamped(Calendar.MonthOf(day) + months, Calendar.DayOfMonth(day)))
  {
    hide Calendar.MonthStart, Calendar.MonthDays, Calendar.MonthOf, Calendar.Clamped;
    var m := Calendar.MonthOf(day);
    assert FallsIn(day - Calendar.MonthStart(m), m + months, Calendar.Clamped(m + months, Calendar.DayOfMonth(day)));
  }

  function LeastGap(f: Frequency): int {
    match f case Daily => 1 case Weekly => 7 case Monthly => 28 case Quarterly => 84
  }

  /** Local dates advance by at least the frequency's least gap, month ends and leap years included. */
  lemma LocalDayGap(s: Schedule, i: int)
    ensures LocalDay(s, i + 1) - LocalDay(s, i) >= LeastGap(s.frequency)
    ensures ByDays(s.frequency) ==> LocalDay(s, i + 1) - LocalDay(s, i) == LeastGap(s.frequency)
  {
    hide Calendar.MonthStart, Calendar.Clamped, Calendar.MonthOf, Calendar.DayOfMonth;
    var day := Anchor(s) / DAY;
    if !ByDays(s.frequency) {
      Calendar.ClampedGap(Calendar.MonthOf(day) + Ahead(s.frequency, i), Ahead(s.frequency, 1), Calendar.DayOfMonth(day));
    }
  }

  /** Two consecutive occurrences are in order exactly when the zone does not move forward between
      them by as much as the dates do. */
  lemma InOrderIff(s: Schedule, i: nat)
    ensures Occurrence(s, i) < Occurrence(s, i + 1) <==>
            Offset(s, i + 1) - Offset(s, i) < (LocalDay(s, i + 1) - LocalDay(s, i)) * DAY
  {
    OccurrenceIsWallMinusOffset(s, i);
    OccurrenceIsWallMinusOffset(s, i + 1);
  }

  /** Occurrences strictly increase through month-end clamping, leap years and offset changes. */
  lemma {:induction false} Increasing(s: Schedule, i: nat, j: nat)
    requires Narrow(s.zone) && i < j
    ensures Occurrence(s, i) < Occurrence(s, j)
    decreases j
  {
    hide LocalDay, Wall, Occurrence, Anchor;
    LocalDayGap(s, j - 1);
    InOrderIff(s, j - 1);
    if i < j - 1 {
      Increasing(s, i, j - 1);
    }
  }

  /** The occurrences of a schedule as a timeline. */
  ghost function Line(s: Schedule): (l: T.Timeline)
    requires Narrow(s.zone)
    ensures T.Increasing(l) && l.endsAt == s.endsAt && l.at(0) == s.startsAt
    ensures forall i: nat :: l.at(i) == Occurrence(s, i)
  {
    hide Occurrence;
    var l := T.Timeline((i: nat) => Occurrence(s, i), s.endsAt);
    IncreasingThroughout(s);
    l
  }

  lemma IncreasingThroughout(s: Schedule)
    requires Narrow(s.zone)
    ensures forall i: nat, j: nat :: i < j ==> Occurrence(s, i) < Occurrence(s, j)
    ensures Occurrence(s, 0) == s.startsAt
  {
    forall i: nat, j: nat | i < j ensures Occurrence(s, i) < Occurrence(s, j) {
      Increasing(s, i, j);
    }
  }

  /** The bound on the offsets is sharp: where a zone skips a whole calendar day, the daily
      occurrences of the skipped day and of the next one are the same instant. */
  lemma DateLineJumpRepeatsAnInstant()
    ensures exists s: Schedule ::
              && (forall t :: 0 <= s.zone.at(t) <= DAY && 0 <= s.zone.wall(t) <= DAY)
              && s.frequency == Daily && Occurrence(s, 1) == Occurrence(s, 2)
  {
    var zone := Zone(0, t => if t < 2 * DAY then 0 else DAY, w => if w < 2 * DAY then 0 else DAY);
    var s := Schedule(Daily, 0, None, zone);
    assert Anchor(s) == 0;
    assert Wall(s, 1) == DAY && Wall(s, 2) == 2 * DAY;
    assert Occurrence(s, 1) == Occurrence(s, 2);
  }

  /** Whole periods between the anchor's date and today's, before negatives are cut off. */
  function RawGuess(s: Schedule, now: int): int {
    var here := (now + s.zone.at(now)) / DAY;
    var day := Anchor(s) / DAY;
    Periods(s.frequency, if ByDays(s.frequency) then here - day else Calendar.MonthOf(here) - Calendar.MonthOf(day))
  }

  /** The calendar guess from which the search starts. */
  function Guess(s: Schedule, now: int): nat {
    if RawGuess(s, now) < 0 then 0 else RawGuess(s, now)
  }

  /** Today's date lies strictly between the dates one place before and one place after the quotient. */
  lemma RawGuessBrackets(s: Schedule, now: int)
    ensures var g := RawGuess(s, now);
            LocalDay(s, g - 1) < (now + s.zone.at(now)) / DAY < LocalDay(s, g + 1)
  {
    hide Calendar.MonthStart, Calendar.Clamped, Calendar.MonthOf, Calendar.DayOfMonth, Anchor;
    var here := (now + s.zone.at(now)) / DAY;
    var day := Anchor(s) / DAY;
    if !ByDays(s.frequency) {
      MonthBrackets(Calendar.MonthOf(day), Calendar.DayOfMonth(day), s.frequency, here);
    }
  }

  lemma MonthBrackets(m: int, dom: int, f: Frequency, here: int)
    requires 1 <= dom && !ByDays(f)
    ensures var g := Periods(f, Calendar.MonthOf(here) - m);
            Calendar.Clamped(m + Ahead(f, g - 1), dom) < here < Calendar.Clamped(m + Ahead(f, g + 1), dom)
  {
    hide Calendar.MonthStart, Calendar.Clamped, Calendar.MonthOf;
    var n := Calendar.MonthOf(here);
    var g := Periods(f, n - m);
    Calendar.MonthStartMonotone(m + Ahead(f, g - 1) + 1, n);
    Calendar.MonthStartMonotone(n + 1, m + Ahead(f, g + 1));
  }

  /** From the quotient, two steps down are surely in the past and two steps up surely in the future. */
  lemma RawGuessIsClose(s: Schedule, now: int)
    requires Narrow(s.zone)
    ensures Occurrence(s, RawGuess(s, now) - 2) < now || RawGuess(s, now) <= 2
    ensures now < Occurrence(s, RawGuess(s, now) + 2) || RawGuess(s, now) + 2 <= 0
  {
    hide LocalDay, RawGuess, Occurrence, Anchor;
    var g := RawGuess(s, now);
    RawGuessBrackets(s, now);
    LocalDayGap(s, g - 2);
    LocalDayGap(s, g + 1);
    OccurrenceIsWallMinusOffset(s, g - 2);
    OccurrenceIsWallMinusOffset(s, g + 2);
    var local := now + s.zone.at(now);
    assert Wall(s, g - 2) < local - DAY;
    assert local + DAY < Wall(s, g + 2);
  }

  /** Occurrence `guess + 2` is after `now`; occurrence `guess - 2`, if there is one, is before it. */
  lemma GuessIsClose(s: Schedule, now: int)
    requires Narrow(s.zone)
    ensures var g := Guess(s, now); now < Occurrence(s, g + 2) && (g <= 2 || Occurrence(s, g - 2) < now)
  {
    hide RawGuess, Occurrence;
    var raw, g := RawGuess(s, now), Guess(s, now);
    RawGuessIsClose(s, now);
    if raw < 0 {
      BelowFirst(s, now);
    }
  }

  /** A negative quotient means that even occurrence 2 is still to come. */
  lemma BelowFirst(s: Schedule, now: int)
    requires Narrow(s.zone) && RawGuess(s, now) < 0
    ensures now < Occurrence(s, 2)
  {
    hide LocalDay, RawGuess, Occurrence, Anchor;
    var g := RawGuess(s, now);
    RawGuessBrackets(s, now);
    AscendingDays(s, g + 1, 0);
    LocalDayGap(s, 0);
    LocalDayGap(s, 1);
    OccurrenceIsWallMinusOffset(s, 2);
    assert now + s.zone.at(now) + DAY < Wall(s, 2);
  }

  lemma {:induction false} AscendingDays(s: Schedule, i: int, j: int)
    requires i <= j
    ensures LocalDay(s, i) <= LocalDay(s, j)
    decreases j - i
  {
    if i < j {
      LocalDayGap(s, j - 1);
      AscendingDays(s, i, j - 1);
    }
  }

  /** The guess-then-correct search. `low` is where the downward loop stops and `index` where the
      upward loop stops: together they move at most two places from the guess. */
  method FindIndex(s: Schedule, now: int) returns (low: nat, index: nat)
    requires Narrow(s.zone)
    ensures low <= Guess(s, now) && low <= index
    ensures (Guess(s, now) - low) + (index - low) <= 2
    ensures index == 0 || Occurrence(s, index) <= now
    ensures now < Occurrence(s, index + 1)
  {
    hide RawGuess, Occurrence;
    ghost var guess := Guess(s, now);
    GuessIsClose(s, now);
    index := Guess(s, now);
    while index > 0 && Occurrence(s, index) > now
      invariant 0 <= index <= guess
      invariant guess - 2 <= index
      invariant index < guess ==> now < Occurrence(s, index + 1)
    {
      index := index - 1;
    }
    low := index;
    while Occurrence(s, index + 1) <= now
      invariant low <= index
      invariant low < guess ==> index == low
      invariant index <= guess + 1
      invariant index == 0 || Occurrence(s, index) <= now
      decreases guess + 2 - index
    {
      if index == guess + 1 { assert false; }
      index := index + 1;
    }
  }

  /** The latest occurrence not after `now` and the next one, both before the exclusive end. */
  method Around(s: Schedule, now: int) returns (latest: Option<int>, following: Option<int>)
    requires Narrow(s.zone)
    ensures latest == T.LatestDue(Line(s), now) && following == T.Upcoming(Line(s), now)
    ensures s.endsAt.Some? && s.endsAt.value <= now ==> latest == None && following == None
    ensures s.endsAt.None? || now < s.endsAt.value ==>
              exists n: nat ::
                && (n > 0 ==> Occurrence(s, n - 1) <= now) && now < Occurrence(s, n)
                && latest == (if n == 0 then None else Some(Occurrence(s, n - 1)))
                && following == if s.endsAt.Some? && s.endsAt.value <= Occurrence(s, n) then None else Some(Occurrence(s, n))
  {
    hide Occurrence, Line, Guess;
    if s.endsAt.Some? && now >= s.endsAt.value {
      return None, None;
    }
    var low, index := FindIndex(s, now);
    var candidate := Occurrence(s, index);
    ghost var l := Line(s);
    latest := if candidate <= now then Some(candidate) else None;
    var next := if latest.Some? then Occurrence(s, index + 1) else candidate;
    following := if s.endsAt.Some? && next >= s.endsAt.value then None else Some(next);
    ghost var n: nat := if latest.Some? then index + 1 else 0;
    assert now < Occurrence(s, n) && (n > 0 ==> Occurrence(s, n - 1) <= now);
    if latest.Some? {
      assert T.Straddles(l, now, index);
      if 0 < index { assert l.at(0) < l.at(index); }
      T.StraddleUnique(l, now, index, T.CurrentIndex(l, now));
    }
  }

  /** A saved schedule starts from the next future occurrence. */
  method FirstDispatch(s: Schedule, now: int) returns (cursor: Option<int>)
    requires Narrow(s.zone)
    ensures cursor == T.Upcoming(Line(s), now)
    ensures cursor.Some? ==> now < cursor.value && T.IsOccurrence(Line(s), cursor.value)
  {
    hide Occurrence, Line;
    var latest, following := Around(s, now);
    cursor := following;
    if !T.Expired(Line(s), now) { T.UpcomingExact(Line(s), now); }
  }
}
