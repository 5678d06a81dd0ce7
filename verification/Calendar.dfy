/** Calendar months over integer milliseconds, and the dates a renewal computes.

    Days follow the proleptic Gregorian calendar at a fixed offset from UTC. A
    month is counted from January of the year 0: month 12 * y + m is month m of
    the year y. */
module Calendar {
  import opened Options

  const DAY_MS := 86_400_000

  predicate LeapYear(y: int) {
    y % 4 == 0 && (y % 100 != 0 || y % 400 == 0)
  }

  function DaysInMonth(month: int): (d: int)
    ensures 28 <= d <= 31
  {
    var m := month % 12;
    if m == 1 then (if LeapYear(month / 12) then 29 else 28)
    else if m == 3 || m == 5 || m == 8 || m == 10 then 30
    else 31
  }

  /** The number of the first day of a month; 1 January 1970 is day 0. */
  function MonthStart(month: int): int
    decreases if month >= 1970 * 12 then month - 1970 * 12 else 1970 * 12 - month
  {
    if month == 1970 * 12 then 0
    else if month > 1970 * 12 then MonthStart(month - 1) + DaysInMonth(month - 1)
    else MonthStart(month + 1) - DaysInMonth(month)
  }

  lemma MonthStep(month: int)
    ensures MonthStart(month + 1) == MonthStart(month) + DaysInMonth(month)
  {
  }

  lemma {:induction false} MonthsApart(a: int, b: int)
    requires a <= b
    ensures MonthStart(b) >= MonthStart(a) + 28 * (b - a)
    decreases b - a
  {
    if a < b {
      MonthStep(b - 1);
      MonthsApart(a, b - 1);
    }
  }

  /** How many days the leap years add before a year of the Gregorian calendar:
      every fourth, without the centuries, with every fourth century. */
  function LeapDays(year: int): int {
    (year + 3) / 4 - (year + 99) / 100 + (year + 399) / 400
  }

  /** The first day of every year in closed form, and the months within it. */
  lemma {:induction false} YearStart(year: int)
    ensures MonthStart(12 * year) == 365 * (year - 1970) + LeapDays(year) - LeapDays(1970)
    decreases if year >= 1970 then year - 1970 else 1970 - year
  {
    if year > 1970 {
      YearStart(year - 1);
      YearLength(year - 1);
    } else if year < 1970 {
      YearStart(year + 1);
      YearLength(year);
    }
  }

  lemma YearLength(year: int)
    ensures MonthStart(12 * (year + 1)) == MonthStart(12 * year) + 365 + LeapDays(year + 1) - LeapDays(year)
  {
    var m := 12 * year;
    MonthsOfYear(year);
    FirstHalf(m);
    SecondHalf(m);
    Leaps(year);
  }

  lemma FirstHalf(m: int)
    ensures MonthStart(m + 6) ==
      MonthStart(m) + DaysInMonth(m) + DaysInMonth(m + 1) + DaysInMonth(m + 2) + DaysInMonth(m + 3) + DaysInMonth(m + 4) + DaysInMonth(m + 5)
  {
    MonthStep(m); MonthStep(m + 1); MonthStep(m + 2); MonthStep(m + 3); MonthStep(m + 4); MonthStep(m + 5);
  }

  lemma SecondHalf(m: int)
    ensures MonthStart(m + 12) ==
      MonthStart(m + 6) + DaysInMonth(m + 6) + DaysInMonth(m + 7) + DaysInMonth(m + 8) + DaysInMonth(m + 9) + DaysInMonth(m + 10) + DaysInMonth(m + 11)
  {
    FirstHalf(m + 6);
  }

  lemma Leaps(year: int)
    ensures LeapDays(year + 1) - LeapDays(year) == if LeapYear(year) then 1 else 0
  {
    EveryFourth(year);
    EveryCentury(year);
    EveryFourthCentury(year);
  }

  lemma EveryFourth(year: int)
    ensures (year + 4) / 4 - (year + 3) / 4 == if year % 4 == 0 then 1 else 0
  {
  }

  lemma EveryCentury(year: int)
    ensures (year + 100) / 100 - (year + 99) / 100 == if year % 100 == 0 then 1 else 0
    ensures year % 100 == 0 ==> year % 4 == 0
  {
  }

  lemma EveryFourthCentury(year: int)
    ensures (year + 400) / 400 - (year + 399) / 400 == if year % 400 == 0 then 1 else 0
    ensures year % 400 == 0 ==> year % 100 == 0
  {
  }

  /** The lengths of the months of a year, January first. */
  lemma MonthsOfYear(year: int)
    ensures
      var m := 12 * year;
      && DaysInMonth(m) == 31 && DaysInMonth(m + 1) == (if LeapYear(year) then 29 else 28) && DaysInMonth(m + 2) == 31
      && DaysInMonth(m + 3) == 30 && DaysInMonth(m + 4) == 31 && DaysInMonth(m + 5) == 30
      && DaysInMonth(m + 6) == 31 && DaysInMonth(m + 7) == 31 && DaysInMonth(m + 8) == 30
      && DaysInMonth(m + 9) == 31 && DaysInMonth(m + 10) == 30 && DaysInMonth(m + 11) == 31
  {
    MonthOfYear(year, 0); MonthOfYear(year, 1); MonthOfYear(year, 2); MonthOfYear(year, 3);
    MonthOfYear(year, 4); MonthOfYear(year, 5); MonthOfYear(year, 6); MonthOfYear(year, 7);
    MonthOfYear(year, 8); MonthOfYear(year, 9); MonthOfYear(year, 10); MonthOfYear(year, 11);
  }

  lemma MonthOfYear(year: int, i: int)
    requires 0 <= i < 12
    ensures (12 * year + i) % 12 == i && (12 * year + i) / 12 == year
  {
  }

  /** The month a day falls in. */
  function MonthOf(day: int): (month: int)
    ensures MonthStart(month) <= day < MonthStart(month + 1)
  {
    MonthsApart(1970 * 12, 1970 * 12 + if day >= 0 then day else 0);
    MonthsApart(1970 * 12 + (if day >= 0 then 0 else day), 1970 * 12);
    Search(day, 1970 * 12 + if day >= 0 then 0 else day)
  }

  function Search(day: int, month: int): (found: int)
    requires MonthStart(month) <= day
    ensures found >= month && MonthStart(found) <= day < MonthStart(found + 1)
    decreases day - MonthStart(month)
  {
    MonthStep(month);
    if day < MonthStart(month + 1) then month else Search(day, month + 1)
  }

  lemma MonthOfUnique(day: int, month: int)
    requires MonthStart(month) <= day < MonthStart(month + 1)
    ensures MonthOf(day) == month
  {
    var found := MonthOf(day);
    if found < month {
      MonthsApart(found + 1, month);
    } else if month < found {
      MonthsApart(month + 1, found);
    }
  }

  // ---- dates ----

  /** A point in time seen in the local calendar: month, day from 1, and the
      milliseconds since midnight. */
  datatype Date = Date(month: int, day: int, clock: int) {
    predicate Valid() {
      1 <= day <= DaysInMonth(month) && 0 <= clock < DAY_MS
    }
  }

  function FromMs(ms: int, offset: int): (d: Date)
    ensures d.Valid()
  {
    var local := ms + offset;
    var month := MonthOf(local / DAY_MS);
    MonthStep(month);
    Date(month, local / DAY_MS - MonthStart(month) + 1, local % DAY_MS)
  }

  /** Local time runs ahead of UTC by the offset, and day 0 is 1 January 1970. */
  lemma LocalTime(ms: int, offset: int)
    ensures FromMs(ms, offset) == FromMs(ms + offset, 0)
    ensures FromMs(0, 0) == Date(12 * 1970, 1, 0)
  {
    MonthStep(12 * 1970);
    MonthOfUnique(0, 12 * 1970);
  }

  /** The instant of a date whose day may lie outside its month, as `setMonth`
      and `setDate` normalise it. */
  function ToMs(d: Date, offset: int): int {
    DayNumber(d) * DAY_MS + d.clock - offset
  }

  lemma RoundTrip(ms: int, offset: int)
    ensures ToMs(FromMs(ms, offset), offset) == ms
  {
  }

  lemma RoundTripDate(d: Date, offset: int)
    requires d.Valid()
    ensures FromMs(ToMs(d, offset), offset) == d
  {
    var local := ToMs(d, offset) + offset;
    var dayNumber := MonthStart(d.month) + d.day - 1;
    DivMod(dayNumber, d.clock);
    MonthStep(d.month);
    MonthOfUnique(dayNumber, d.month);
  }

  lemma DivMod(q: int, r: int)
    requires 0 <= r < DAY_MS
    ensures (q * DAY_MS + r) / DAY_MS == q && (q * DAY_MS + r) % DAY_MS == r
  {
  }

  /** The date in the month `months` later, with the day clamped to its length. */
  function MonthsLater(d: Date, months: int): Date {
    var month := d.month + months;
    d.(month := month, day := if d.day <= DaysInMonth(month) then d.day else DaysInMonth(month))
  }

  /** `addMonths`: move the month and let an overlong day run over; when it did,
      step back to the last day of the month before. */
  method AddMonths(ms: int, months: int, offset: int) returns (next: int)
    ensures next == ToMs(MonthsLater(FromMs(ms, offset), months), offset)
    ensures FromMs(next, offset) == MonthsLater(FromMs(ms, offset), months)
  {
    next := ms;
    var day := FromMs(next, offset).day;
    var date := FromMs(next, offset);
    next := ToMs(date.(month := date.month + months), offset);
    AfterSetMonth(date, months, offset);
    if FromMs(next, offset).day < day {
      next := ToMs(FromMs(next, offset).(day := 0), offset);
    }
    RoundTripDate(MonthsLater(date, months), offset);
  }

  /** Where `setMonth` lands: in the month aimed at, or, when the day does not
      exist there, a few days into the next one. */
  lemma AfterSetMonth(d: Date, months: int, offset: int)
    requires d.Valid()
    ensures
      var month := d.month + months;
      var landed := FromMs(ToMs(d.(month := month), offset), offset);
      if d.day <= DaysInMonth(month) then landed == d.(month := month)
      else
        && landed == Date(month + 1, d.day - DaysInMonth(month), d.clock) && landed.day < d.day
        && ToMs(landed.(day := 0), offset) == ToMs(MonthsLater(d, months), offset)
  {
    var month := d.month + months;
    if d.day <= DaysInMonth(month) {
      RoundTripDate(d.(month := month), offset);
    } else {
      MonthStep(month);
      RoundTripDate(Date(month + 1, d.day - DaysInMonth(month), d.clock), offset);
    }
  }

  function DayNumber(d: Date): int {
    MonthStart(d.month) + d.day - 1
  }

  lemma MonthsAreLongInDays(d: Date, months: nat)
    requires d.Valid()
    ensures DayNumber(MonthsLater(d, months)) >= DayNumber(d) + 28 * months
  {
    var month := d.month + months;
    MonthsApart(d.month, month);
    if d.day > DaysInMonth(month) {
      MonthStep(month);
      MonthStep(d.month);
      MonthsApart(d.month + 1, month + 1);
    }
  }

  /** Adding months moves a date forward by at least 28 days for each. */
  lemma MonthsAreLong(d: Date, months: nat, offset: int)
    requires d.Valid()
    ensures ToMs(MonthsLater(d, months), offset) >= ToMs(d, offset) + 28 * months * DAY_MS
  {
    MonthsAreLongInDays(d, months);
    DaysToMs(DayNumber(d), 28 * months, DayNumber(MonthsLater(d, months)));
  }

  lemma DaysToMs(from: int, days: int, to: int)
    requires to >= from + days
    ensures to * DAY_MS >= from * DAY_MS + days * DAY_MS
  {
  }

  function MonthsAfter(ms: int, months: int, offset: int): int {
    ToMs(MonthsLater(FromMs(ms, offset), months), offset)
  }

  /** `latestDate`: the latest of now and the dates that are there. */
  function LatestDate(now: int, dates: seq<Option<int>>): (latest: int)
    ensures latest >= now
    ensures forall d <- dates :: d.Some? ==> latest >= d.value
    ensures latest == now || Some(latest) in dates
  {
    if dates == [] then now
    else
      var rest := LatestDate(now, dates[1..]);
      assert dates == [dates[0]] + dates[1..];
      if dates[0].Some? && dates[0].value > rest then dates[0].value else rest
  }

  // ---- remote states ----

  /** A client on a panel as far as a renewal cares: its expiry in milliseconds,
      0 for none, and whether it is enabled. */
  datatype Remote = Remote(expiry: int, enable: bool)

  const TOLERANCE := 1000

  function Abs(x: int): int {
    if x < 0 then -x else x
  }

  predicate RemoteMatches(state: Remote, expireAt: int, enable: bool) {
    Abs(state.expiry - expireAt) <= TOLERANCE && state.enable == enable
  }

  predicate RemoteMatchesSnapshot(state: Remote, snapshot: Remote) {
    Abs(state.expiry - snapshot.expiry) <= TOLERANCE && state.enable == snapshot.enable
  }

  /** The expiry a renewal aims at. */
  function RenewalTarget(now: int, expireAt: Option<int>, remote: Remote, months: int, offset: int): int {
    MonthsAfter(LatestDate(now, [expireAt, if remote.expiry > 0 then Some(remote.expiry) else None]), months, offset)
  }

  lemma TargetIsFar(now: int, expireAt: Option<int>, remote: Remote, months: nat, offset: int)
    requires now >= 0
    ensures RenewalTarget(now, expireAt, remote, months, offset) >= remote.expiry + 28 * months * DAY_MS
    ensures RenewalTarget(now, expireAt, remote, months, offset) >= now + 28 * months * DAY_MS
    ensures expireAt.Some? ==> RenewalTarget(now, expireAt, remote, months, offset) >= expireAt.value + 28 * months * DAY_MS
  {
    var dates := [expireAt, if remote.expiry > 0 then Some(remote.expiry) else None];
    var latest := LatestDate(now, dates);
    assert dates[0] in dates && dates[1] in dates;
    RoundTrip(latest, offset);
    MonthsAreLong(FromMs(latest, offset), months, offset);
  }

  /** A renewal moves the expiry at least 28 days beyond the one on the panel. */
  lemma TargetIsLater(now: int, expireAt: Option<int>, remote: Remote, months: nat, offset: int)
    requires now >= 0 && months >= 1
    ensures RenewalTarget(now, expireAt, remote, months, offset) >= remote.expiry + 28 * DAY_MS
  {
    TargetIsFar(now, expireAt, remote, months, offset);
    assert 28 * months * DAY_MS >= 28 * DAY_MS;
  }

  /** No remote state is both the target and the snapshot of a renewal. */
  lemma NeverBoth(now: int, expireAt: Option<int>, snapshot: Remote, months: nat, offset: int, state: Remote, enable: bool)
    requires now >= 0 && months >= 1
    ensures !(RemoteMatches(state, RenewalTarget(now, expireAt, snapshot, months, offset), enable)
              && RemoteMatchesSnapshot(state, snapshot))
  {
    TargetIsLater(now, expireAt, snapshot, months, offset);
  }

  /** An expiry as an S-UI panel keeps it: whole seconds. */
  function WholeSeconds(ms: int): int {
    ms / 1000 * 1000
  }

  /** The expiry written to S-UI still counts as the target when it is read back. */
  lemma WholeSecondsMatch(expireAt: int, enable: bool)
    ensures RemoteMatches(Remote(WholeSeconds(expireAt), enable), expireAt, enable)
  {
  }
}
