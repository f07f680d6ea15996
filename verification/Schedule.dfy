/** When does a job run next? Instants are microseconds of local time since a Monday, 00:00. */
module Schedule {
  import opened Fleet

  const SECOND := 1_000_000
  const MINUTE := 60 * SECOND
  const HOUR := 60 * MINUTE
  const DAY := 24 * HOUR
  const WEEK := 7 * DAY

  datatype Kind = Daily | Weekly | Interval | Unknown(text: string)

  /** `at` and `day` are kept as written, as the configuration keeps them. */
  datatype Spec = Spec(enabled: bool, kind: Kind, at: string, day: string, everyHours: int)

  datatype Result<+T> = Ok(value: T) | Invalid(why: string)

  const DAYS := ["monday", "tuesday", "wednesday", "thursday", "friday", "saturday", "sunday"]

  /** `text.split(":")` with exactly two parts. */
  function SplitOnce(text: string): Option<(string, string)> {
    if text == "" then None
    else if text[0] == ':' then
      if ':' in text[1..] then None else Some(("", text[1..]))
    else
      match SplitOnce(text[1..])
      case None => None
      case Some((a, b)) => Some(([text[0]] + a, b))
  }

  lemma {:induction false} SplitsAsWritten(a: string, b: string)
    requires ':' !in a && ':' !in b
    ensures SplitOnce(a + ":" + b) == Some((a, b))
  {
    if a == "" {
      assert (a + ":" + b)[1..] == b;
    } else {
      assert (a + ":" + b)[1..] == a[1..] + ":" + b;
      assert (a + ":" + b)[0] == a[0] && a == [a[0]] + a[1..];
      SplitsAsWritten(a[1..], b);
    }
  }

  lemma {:induction false} SplitIsExact(text: string)
    requires SplitOnce(text).Some?
    ensures var (a, b) := SplitOnce(text).value; text == a + ":" + b && ':' !in a && ':' !in b
  {
    if text[0] != ':' {
      SplitIsExact(text[1..]);
      assert text == [text[0]] + text[1..];
    }
  }

  /** `_time_of_day`. `parse` is Python's `int()` on text. */
  function TimeOfDay(at: string, parse: string -> Option<int>): (r: Result<(int, int)>)
    ensures r.Ok? ==> 0 <= r.value.0 <= 23 && 0 <= r.value.1 <= 59
  {
    match SplitOnce(at)
    case None => Invalid("time must look like 07:00")
    case Some((a, b)) =>
      if parse(a).None? || parse(b).None? then Invalid("time must look like 07:00")
      else if 0 <= parse(a).value <= 23 && 0 <= parse(b).value <= 59 then Ok((parse(a).value, parse(b).value))
      else Invalid("time out of range")
  }

  function IndexOf(days: seq<string>, day: string): (i: nat)
    requires day in days
    ensures i < |days| && days[i] == day
  {
    if days[0] == day then 0 else 1 + IndexOf(days[1..], day)
  }

  function Weekday(t: int): int { (t / DAY) % 7 }

  function NextRun(spec: Spec, after: int, lastRun: Option<int>, parse: string -> Option<int>): Result<Option<int>> {
    if !spec.enabled then Ok(None)
    else if spec.kind.Interval? then
      if spec.everyHours < 1 then Invalid("interval must be at least one hour")
      else
        var base := if lastRun.Some? then lastRun.value else after;
        var candidate := base + spec.everyHours * HOUR;
        Ok(Some(if candidate > after then candidate else after))
    else
      match TimeOfDay(spec.at, parse)
      case Invalid(why) => Invalid(why)
      case Ok((hour, minute)) =>
        var candidate := after - after % DAY + hour * HOUR + minute * MINUTE;
        match spec.kind
        case Daily => Ok(Some(if candidate <= after then candidate + DAY else candidate))
        case Weekly =>
          if spec.day !in DAYS then Invalid("unknown day")
          else
            var ahead := (IndexOf(DAYS, spec.day) - Weekday(candidate)) % 7;
            var onDay := candidate + ahead * DAY;
            Ok(Some(if onDay <= after then onDay + WEEK else onDay))
        case _ => Invalid("unknown schedule kind")
  }

  // -- what a daily or weekly schedule means ---------------------------------

  /** The period of a clock schedule, and the offset of its instants in it. */
  function Period(spec: Spec): int {
    if spec.kind.Weekly? then WEEK else DAY
  }

  predicate IsClock(spec: Spec, parse: string -> Option<int>) {
    && spec.enabled
    && TimeOfDay(spec.at, parse).Ok?
    && (spec.kind.Daily? || (spec.kind.Weekly? && spec.day in DAYS))
  }

  /** Is `t` an instant the schedule names? */
  predicate Matches(spec: Spec, parse: string -> Option<int>, t: int)
    requires IsClock(spec, parse)
  {
    var (hour, minute) := TimeOfDay(spec.at, parse).value;
    && t % DAY == hour * HOUR + minute * MINUTE
    && (spec.kind.Weekly? ==> Weekday(t) == IndexOf(DAYS, spec.day))
  }

  /** The day of an instant, by its name: instants count from a Monday. */
  function DayName(t: int): string {
    match t / 86_400_000_000 % 7
    case 0 => "monday"
    case 1 => "tuesday"
    case 2 => "wednesday"
    case 3 => "thursday"
    case 4 => "friday"
    case 5 => "saturday"
    case _ => "sunday"
  }

  lemma DaysInOrder(i: nat)
    requires i < 7
    ensures IndexOf(DAYS, DAYS[i]) == i
  {
    IndexOfDay(DAYS, i);
  }

  lemma {:induction false} IndexOfDay(days: seq<string>, i: nat)
    requires i < |days| && forall j, k | 0 <= j < k < |days| :: days[j] != days[k]
    ensures IndexOf(days, days[i]) == i
  {
    if i > 0 {
      IndexOfDay(days[1..], i - 1);
    }
  }

  /** A schedule written "a:b" names the instants at hour a, minute b: every day's, or those of the day it
      names. */
  lemma MeansWhatItSays(spec: Spec, parse: string -> Option<int>, a: string, b: string, hour: int, minute: int, t: int)
    requires spec.enabled && spec.at == a + ":" + b && ':' !in a && ':' !in b
    requires parse(a) == Some(hour) && 0 <= hour <= 23 && parse(b) == Some(minute) && 0 <= minute <= 59
    requires spec.kind.Daily? || (spec.kind.Weekly? && spec.day in DAYS)
    ensures IsClock(spec, parse)
    ensures Matches(spec, parse, t) <==>
              && t % 86_400_000_000 == hour * 3_600_000_000 + minute * 60_000_000
              && (spec.kind.Weekly? ==> spec.day == DayName(t))
  {
    SplitsAsWritten(a, b);
    var i := Weekday(t);
    DaysInOrder(i);
    assert DAYS[i] == DayName(t);
  }

  /** And an accepted time is written so. */
  lemma TimeIsWritten(at: string, parse: string -> Option<int>)
    requires TimeOfDay(at, parse).Ok?
    ensures exists a, b :: at == a + ":" + b && ':' !in a && ':' !in b && parse(a).Some? && parse(b).Some? &&
              TimeOfDay(at, parse).value == (parse(a).value, parse(b).value)
  {
    SplitIsExact(at);
    var (a, b) := SplitOnce(at).value;
    assert at == a + ":" + b;
  }

  lemma DayOf(days: int, tod: int)
    requires 0 <= tod < DAY
    ensures (days * DAY + tod) % DAY == tod && (days * DAY + tod) / DAY == days
  {
  }

  /** Two instants at the same time of day are whole days apart. */
  lemma SameTimeOfDay(a: int, b: int)
    requires a % DAY == b % DAY
    ensures b - a == (b / DAY - a / DAY) * DAY
  {
  }

  /** Two instants of one schedule are whole periods apart. */
  lemma Apart(spec: Spec, parse: string -> Option<int>, a: int, b: int)
    requires IsClock(spec, parse) && Matches(spec, parse, a) && Matches(spec, parse, b)
    ensures (b - a) % Period(spec) == 0
  {
    SameTimeOfDay(a, b);
    var d := b / DAY - a / DAY;
    if spec.kind.Weekly? {
      assert d % 7 == 0;
      assert b - a == d / 7 * WEEK;
    }
  }

  /** Today at `tod`, or tomorrow. */
  lemma DailyCandidate(after: int, tod: int)
    requires 0 <= tod < DAY
    ensures var c := after - after % DAY + tod;
            var r := if c <= after then c + DAY else c;
            after < r <= after + DAY && r % DAY == tod && r / DAY == after / DAY + if c <= after then 1 else 0
  {
    var day := after / DAY;
    DayOf(day, tod);
    DayOf(day + 1, tod);
    assert after - after % DAY == day * DAY;
  }

  lemma DaysAhead(day: int, target: nat)
    requires target < 7
    ensures var ahead := (target - day % 7) % 7;
            0 <= ahead < 7 && (day + ahead) % 7 == target && (day + ahead + 7) % 7 == target
  {
  }

  lemma Spread(day: int, ahead: int, tod: int)
    ensures (day + ahead) * DAY + tod == day * DAY + tod + ahead * DAY
    ensures (day + ahead + 7) * DAY + tod == day * DAY + tod + ahead * DAY + WEEK
  {
  }

  /** The next `target` weekday at `tod`. */
  lemma WeeklyCandidate(after: int, tod: int, target: nat)
    requires 0 <= tod < DAY && target < 7
    ensures var c := after - after % DAY + tod;
            var onDay := c + (target - Weekday(c)) % 7 * DAY;
            var r := if onDay <= after then onDay + WEEK else onDay;
            after < r <= after + WEEK && r % DAY == tod && Weekday(r) == target
  {
    var day := after / DAY;
    var ahead := (target - day % 7) % 7;
    assert after - after % DAY == day * DAY;
    DaysAhead(day, target);
    DayOf(day, tod);
    DayOf(day + ahead, tod);
    DayOf(day + ahead + 7, tod);
    Spread(day, ahead, tod);
  }

  lemma DailyMatches(spec: Spec, after: int, lastRun: Option<int>, parse: string -> Option<int>)
    requires IsClock(spec, parse) && spec.kind.Daily?
    ensures NextRun(spec, after, lastRun, parse).Ok? && NextRun(spec, after, lastRun, parse).value.Some?
    ensures var r := NextRun(spec, after, lastRun, parse).value.value;
            after < r <= after + DAY && Matches(spec, parse, r)
  {
    var (hour, minute) := TimeOfDay(spec.at, parse).value;
    DailyCandidate(after, hour * HOUR + minute * MINUTE);
  }

  lemma WeeklyMatches(spec: Spec, after: int, lastRun: Option<int>, parse: string -> Option<int>)
    requires IsClock(spec, parse) && spec.kind.Weekly?
    ensures NextRun(spec, after, lastRun, parse).Ok? && NextRun(spec, after, lastRun, parse).value.Some?
    ensures var r := NextRun(spec, after, lastRun, parse).value.value;
            after < r <= after + WEEK && Matches(spec, parse, r)
  {
    var (hour, minute) := TimeOfDay(spec.at, parse).value;
    WeeklyCandidate(after, hour * HOUR + minute * MINUTE, IndexOf(DAYS, spec.day));
  }

  /** `next_run` names an instant of the schedule, later than `after` by at most a period. */
  lemma NextRunMatches(spec: Spec, after: int, lastRun: Option<int>, parse: string -> Option<int>)
    requires IsClock(spec, parse)
    ensures NextRun(spec, after, lastRun, parse).Ok? && NextRun(spec, after, lastRun, parse).value.Some?
    ensures var r := NextRun(spec, after, lastRun, parse).value.value;
            after < r <= after + Period(spec) && Matches(spec, parse, r)
  {
    if spec.kind.Daily? {
      DailyMatches(spec, after, lastRun, parse);
    } else {
      WeeklyMatches(spec, after, lastRun, parse);
    }
  }

  /** Two instants of one schedule less than a period apart are one. */
  lemma OnePerPeriod(spec: Spec, parse: string -> Option<int>, a: int, b: int)
    requires IsClock(spec, parse) && Matches(spec, parse, a) && Matches(spec, parse, b)
    requires a <= b < a + Period(spec)
    ensures a == b
  {
    Apart(spec, parse, a, b);
  }

  /** `next_run` is the least instant of the schedule strictly after `after`. */
  lemma NextRunIsLeast(spec: Spec, after: int, t: int, lastRun: Option<int>, parse: string -> Option<int>)
    requires IsClock(spec, parse) && after < t && Matches(spec, parse, t)
    ensures NextRun(spec, after, lastRun, parse).Ok? && NextRun(spec, after, lastRun, parse).value.Some?
    ensures NextRun(spec, after, lastRun, parse).value.value <= t
  {
    NextRunMatches(spec, after, lastRun, parse);
    var r := NextRun(spec, after, lastRun, parse).value.value;
    if t < r {
      OnePerPeriod(spec, parse, t, r);
    }
  }

  /** It does not move until it is reached, whatever the job does meanwhile. */
  lemma NextRunIsStable(spec: Spec, after: int, t: int, lastRun: Option<int>, lastRun': Option<int>,
                        parse: string -> Option<int>)
    requires IsClock(spec, parse) && after <= t
    requires NextRun(spec, after, lastRun, parse).Ok? && NextRun(spec, after, lastRun, parse).value.Some?
    requires t < NextRun(spec, after, lastRun, parse).value.value
    ensures NextRun(spec, t, lastRun', parse) == NextRun(spec, after, lastRun, parse)
  {
    NextRunMatches(spec, after, lastRun, parse);
    NextRunMatches(spec, t, lastRun', parse);
    var r, r' := NextRun(spec, after, lastRun, parse).value.value, NextRun(spec, t, lastRun', parse).value.value;
    NextRunIsLeast(spec, after, r', lastRun, parse);
    NextRunIsLeast(spec, t, r, lastRun', parse);
  }

  predicate IsInterval(spec: Spec) {
    spec.enabled && spec.kind.Interval? && spec.everyHours >= 1
  }

  /** A job has a next run exactly when it is enabled, and its schedule one of the three kinds. */
  lemma HasNextRunIff(spec: Spec, after: int, lastRun: Option<int>, parse: string -> Option<int>)
    ensures NextRun(spec, after, lastRun, parse).Ok? && NextRun(spec, after, lastRun, parse).value.Some?
       <==> IsClock(spec, parse) || IsInterval(spec)
    ensures !spec.enabled ==> NextRun(spec, after, lastRun, parse) == Ok(None)
  {
    if IsClock(spec, parse) {
      NextRunMatches(spec, after, lastRun, parse);
    }
  }

  /** An interval job that ran is found due exactly when its hours have passed since; before that the
      answer is the one instant at which they will have. */
  lemma IntervalIsDueIff(spec: Spec, now: int, last: int, parse: string -> Option<int>)
    requires spec.enabled && spec.kind.Interval? && spec.everyHours >= 1
    ensures NextRun(spec, now, Some(last), parse) == Ok(Some(now)) <==> now - last >= spec.everyHours * 3_600_000_000
    ensures now - last < spec.everyHours * 3_600_000_000 ==>
              NextRun(spec, now, Some(last), parse) == Ok(Some(last + spec.everyHours * 3_600_000_000))
  {
  }

  /** The due time of an interval job that has run does not move until it is reached; from then on
      every look finds it due at once. */
  lemma IntervalIsStable(spec: Spec, after: int, later: int, last: int, parse: string -> Option<int>)
    requires IsInterval(spec) && after <= later
    requires NextRun(spec, after, Some(last), parse).Ok? && NextRun(spec, after, Some(last), parse).value.Some?
    ensures var due := NextRun(spec, after, Some(last), parse).value.value;
            NextRun(spec, later, Some(last), parse) == Ok(Some(if later < due then due else later))
  {
    IntervalIsDueIff(spec, after, last, parse);
    IntervalIsDueIff(spec, later, last, parse);
  }

  /** Without a recorded run an interval job never comes due: there is a moment at which the loop finds
      it due exactly when a run is recorded. */
  lemma IntervalNeedsARecordedRun(spec: Spec, lastRun: Option<int>, parse: string -> Option<int>)
    requires IsInterval(spec)
    ensures (exists now :: NextRun(spec, now, lastRun, parse) == Ok(Some(now))) <==> lastRun.Some?
  {
    if lastRun.Some? {
      var now := lastRun.value + spec.everyHours * HOUR;
      assert NextRun(spec, now, lastRun, parse) == Ok(Some(now));
    } else {
      forall now
        ensures NextRun(spec, now, lastRun, parse) != Ok(Some(now))
      {
        assert spec.everyHours * HOUR > 0;
      }
    }
  }

  // -- the settings form -----------------------------------------------------

  function FromDict(enabled: Option<bool>, kind: Option<Kind>, at: Option<string>, day: Option<string>,
                    every: Option<int>): Spec {
    Spec(if enabled.Some? then enabled.value else false,
         if kind.Some? then kind.value else Daily,
         if at.Some? then at.value else "09:00",
         if day.Some? then day.value else "monday",
         if every.Some? then every.value else 6)
  }

  /** `from_dict(spec.to_dict())`: `to_dict` writes only the fields the kind uses. */
  function Stored(spec: Spec): Spec {
    if spec.kind.Interval? then FromDict(Some(spec.enabled), Some(spec.kind), None, None, Some(spec.everyHours))
    else FromDict(Some(spec.enabled), Some(spec.kind), Some(spec.at),
                  if spec.kind.Weekly? then Some(spec.day) else None, None)
  }

  /** `validate.schedules` for one job: tried at `now` as if it were enabled. */
  predicate Accepted(spec: Spec, now: int, parse: string -> Option<int>) {
    && !spec.kind.Unknown?
    && (spec.kind.Interval? ==> spec.everyHours >= 1)
    && (spec.kind.Weekly? ==> spec.day in DAYS)
    && NextRun(spec.(enabled := true), now, None, parse).Ok?
  }

  lemma StoredFiresAlike(spec: Spec, later: int, lastRun: Option<int>, parse: string -> Option<int>)
    requires !spec.kind.Unknown?
    ensures NextRun(Stored(spec), later, lastRun, parse) == NextRun(spec, later, lastRun, parse)
  {
  }

  lemma NeverFails(spec: Spec, now: int, later: int, enabled: bool, lastRun: Option<int>, parse: string -> Option<int>)
    requires Accepted(spec, now, parse)
    ensures NextRun(spec.(enabled := enabled), later, lastRun, parse).Ok?
  {
  }

  /** A schedule the form accepted never fails afterwards: not at a later instant, not once it is
      enabled, not when read back from the file, and then it fires at the same instants. */
  lemma AcceptedNeverFails(spec: Spec, now: int, later: int, enabled: bool, lastRun: Option<int>,
                           parse: string -> Option<int>)
    requires Accepted(spec, now, parse)
    ensures NextRun(spec.(enabled := enabled), later, lastRun, parse).Ok?
    ensures NextRun(Stored(spec.(enabled := enabled)), later, lastRun, parse) ==
            NextRun(spec.(enabled := enabled), later, lastRun, parse)
  {
    NeverFails(spec, now, later, enabled, lastRun, parse);
    StoredFiresAlike(spec.(enabled := enabled), later, lastRun, parse);
  }

  /** And a schedule the form turns down would have failed in the loop: at every instant, once
      enabled. Nothing usable is refused. */
  lemma RefusedWouldFail(spec: Spec, now: int, later: int, lastRun: Option<int>, parse: string -> Option<int>)
    requires !Accepted(spec, now, parse)
    ensures NextRun(spec.(enabled := true), later, lastRun, parse).Invalid?
  {
  }
}
