/** Machines updated in a window of their own: when the window is open, whose turn it is, and how
    often that comes round. Instants are those of `Schedule`. */
module UpdateWindow {
  import opened Fleet
  import opened Schedule
  import UpdateMonitor
  import Updater

  const SLACK := 12 * HOUR
  const MINUTES_A_DAY := 1440
  const DEFAULT_EVERY_DAYS := 7

  /** `parse`, after the pattern has matched: the four numbers of "03:00-07:00". */
  function Parse(h1: nat, m1: nat, h2: nat, m2: nat): (r: Option<Window>)
    ensures r.Some? ==> IsWindow(r.value)
    ensures r.Some? ==> r.value.start / 60 == h1 && r.value.start % 60 == m1
    ensures r.Some? ==> r.value.end / 60 == h2 && r.value.end % 60 == m2
    ensures r.Some? <==> h1 < 24 && h2 < 24 && m1 < 60 && m2 < 60 && (h1, m1) != (h2, m2)
  {
    if !(h1 < 24 && h2 < 24 && m1 < 60 && m2 < 60) || (h1, m1) == (h2, m2) then None
    else Some(Window(h1 * 60 + m1, h2 * 60 + m2))
  }

  predicate IsWindow(w: Window) {
    0 <= w.start < MINUTES_A_DAY && 0 <= w.end < MINUTES_A_DAY && w.start != w.end
  }

  /** When the window that is open at `now` opened. */
  function Opening(w: Window, now: int): Option<int> {
    var midnight := now - now % DAY;
    var today := midnight + w.start * MINUTE;
    var clock := now % DAY;
    if w.start < w.end then
      if w.start * MINUTE <= clock < w.end * MINUTE then Some(today) else None
    else if clock >= w.start * MINUTE then Some(today)
    else if clock < w.end * MINUTE then Some(today - DAY)
    else None
  }

  /** How long the window stays open; a window whose end is before its start crosses midnight. */
  function Length(w: Window): (length: int)
    requires IsWindow(w)
    ensures 0 < length < DAY && (length == (w.end - w.start) * MINUTE || length == (w.end - w.start) * MINUTE + DAY)
  {
    (if w.start < w.end then w.end - w.start else w.end - w.start + MINUTES_A_DAY) * MINUTE
  }

  predicate OpensAt(w: Window, o: int) {
    o % DAY == w.start * MINUTE
  }

  lemma OpeningIsOpen(w: Window, now: int, o: int)
    requires IsWindow(w) && Opening(w, now) == Some(o)
    ensures OpensAt(w, o) && o <= now < o + Length(w)
  {
    var day := now / DAY;
    assert now - now % DAY == day * DAY;
    DayOf(day, w.start * MINUTE);
    DayOf(day - 1, w.start * MINUTE);
    assert (day - 1) * DAY == day * DAY - DAY;
  }

  lemma OpenIsOpening(w: Window, now: int, o: int)
    requires IsWindow(w) && OpensAt(w, o) && o <= now < o + Length(w)
    ensures Opening(w, now) == Some(o)
  {
    var day, tod, d := now / DAY, now % DAY, o / DAY;
    assert now == day * DAY + tod && o == d * DAY + w.start * MINUTE;
    WholeDays(d, day, w.start * MINUTE, tod, Length(w));
    assert (day - 1) * DAY == day * DAY - DAY;
  }

  /** `opening` is the one instant at which the window opens with `now` inside it, across midnight
      too, and `None` when there is no such instant. */
  lemma OpeningIsTheOpenWindow(w: Window, now: int, o: int)
    requires IsWindow(w)
    ensures Opening(w, now) == Some(o) <==> OpensAt(w, o) && o <= now < o + Length(w)
  {
    if Opening(w, now) == Some(o) {
      OpeningIsOpen(w, now, o);
    }
    if OpensAt(w, o) && o <= now < o + Length(w) {
      OpenIsOpening(w, now, o);
    }
  }

  lemma WholeDays(d: int, day: int, start: int, tod: int, length: int)
    requires 0 <= start < DAY && 0 <= tod < DAY && length < DAY
    requires d * DAY + start <= day * DAY + tod < d * DAY + start + length
    ensures d == day || d == day - 1
  {
    assert (day - d) * DAY == day * DAY - d * DAY;
    assert -DAY < (day - d) * DAY < 2 * DAY;
  }

  /** Later looks find the same opening or a later one. */
  lemma OpeningsAreInOrder(w: Window, now: int, later: int)
    requires IsWindow(w) && now <= later && Opening(w, now).Some? && Opening(w, later).Some?
    ensures Opening(w, now).value <= Opening(w, later).value
  {
    var a, b := Opening(w, now).value, Opening(w, later).value;
    OpeningIsTheOpenWindow(w, now, a);
    OpeningIsTheOpenWindow(w, later, b);
    SameTimeOfDay(b, a);
  }

  // -- whose turn it is ------------------------------------------------------

  /** `state.json`'s `update_windows` entry for one server. */
  datatype Seen = Seen(tried: Option<int>, updated: Option<int>)

  const NEVER := Seen(None, None)

  function SeenOf(record: map<string, Seen>, name: string): Seen {
    if name in record then record[name] else NEVER
  }

  function EveryDays(s: Server): int {
    if s.everyDays == 0 then DEFAULT_EVERY_DAYS else s.everyDays
  }

  /** Was the machine updated too recently to be due at `now`? */
  predicate Recent(updated: Option<int>, everyDays: int, now: int) {
    updated.Some? && now - updated.value < everyDays * DAY - SLACK
  }

  predicate IsDue(cfg: Config, enrolled: set<Address>, record: map<string, Seen>, s: Server, now: int) {
    && s.window.Some? && IsWindow(s.window.value)
    && s.name !in ManagedNames(cfg.servers)
    && UpdateMonitor.Member(cfg, enrolled, s)
    && Opening(s.window.value, now).Some?
    && SeenOf(record, s.name).tried != Opening(s.window.value, now)
    && !Recent(SeenOf(record, s.name).updated, EveryDays(s), now)
  }

  /** The names of the due servers among `servers`, in config order. */
  function DueOf(cfg: Config, enrolled: set<Address>, record: map<string, Seen>, servers: seq<Server>,
                 now: int): (names: seq<string>)
    ensures forall n :: n in names <==> exists s :: s in servers && s.name == n && IsDue(cfg, enrolled, record, s, now)
  {
    if servers == [] then []
    else
      var last := servers[|servers| - 1];
      DueOf(cfg, enrolled, record, servers[..|servers| - 1], now) +
      (if IsDue(cfg, enrolled, record, last, now) then [last.name] else [])
  }

  /** `due` */
  method Due(cfg: Config, enrolled: set<Address>, record: map<string, Seen>, now: int) returns (names: seq<string>)
    ensures names == DueOf(cfg, enrolled, record, cfg.servers, now)
  {
    var guests := ManagedNames(cfg.servers);
    names := [];
    for i := 0 to |cfg.servers|
      invariant names == DueOf(cfg, enrolled, record, cfg.servers[..i], now)
    {
      var s := cfg.servers[i];
      assert cfg.servers[..i + 1][..i] == cfg.servers[..i];
      if s.window.None? || s.name in guests || Updater.SkipReason(cfg, enrolled, s).Some? {
        continue;
      }
      if !IsWindow(s.window.value) {
        continue;                     // logged as an error
      }
      var opening := Opening(s.window.value, now);
      var seen := SeenOf(record, s.name);
      if opening.None? || seen.tried == opening {
        continue;
      }
      if seen.updated.Some? && now - seen.updated.value < EveryDays(s) * DAY - SLACK {
        continue;
      }
      names := names + [s.name];
    }
    assert cfg.servers[..|cfg.servers|] == cfg.servers;
  }

  // -- how often it comes round ----------------------------------------------

  /** A machine updated at `updated`, in the window that opened at `o` and within twelve hours of
      the opening, is asked about at `now`, in that window or a later one: it is due by its date
      exactly when that window opened `n` days later or more. */
  ghost predicate OnTime(w: Window, n: int, o: int, updated: int, now: int) {
    OpensAt(w, o) && o <= updated <= o + SLACK && Opening(w, now).Some? && o <= Opening(w, now).value ==>
      (!Recent(Some(updated), n, now) <==> Opening(w, now).value >= o + n * DAY)
  }

  ghost predicate ComesRoundEvery(w: Window, n: int) {
    forall o, updated, now :: OnTime(w, n, o, updated, now)
  }

  /** With a window of at most twelve hours the period is exactly `n` days, whatever `n`. A longer
      one breaks it: towards its end the machine is due a night early. */
  lemma PeriodIsExactIffHalfADay(w: Window)
    requires IsWindow(w)
    ensures (forall n | n >= 1 :: ComesRoundEvery(w, n)) <==> Length(w) <= 12 * HOUR
  {
    if Length(w) <= SLACK {
      forall n | n >= 1
        ensures ComesRoundEvery(w, n)
      {
        PeriodIsExact(w, n);
      }
    } else {
      var o := w.start * MINUTE;
      var now := o + DAY + SLACK;
      DayOf(0, o);
      DayOf(1, o);
      OpeningIsTheOpenWindow(w, now, o + DAY);
      assert !OnTime(w, 2, o, o, now);
      assert !ComesRoundEvery(w, 2);
    }
  }

  lemma PeriodIsExact(w: Window, n: int)
    requires IsWindow(w) && Length(w) <= SLACK && n >= 1
    ensures ComesRoundEvery(w, n)
  {
    forall o, updated, now |
      OpensAt(w, o) && o <= updated <= o + SLACK && Opening(w, now).Some? && o <= Opening(w, now).value
      ensures OnTime(w, n, o, updated, now)
    {
      var p := Opening(w, now).value;
      OpeningIsTheOpenWindow(w, now, p);
      SameTimeOfDay(o, p);
      var k := p / DAY - o / DAY;
      assert p == o + k * DAY;
      if k < n {
        assert k * DAY <= (n - 1) * DAY;
        assert (n - 1) * DAY == n * DAY - DAY;
      } else {
        assert k * DAY >= n * DAY;
      }
    }
  }

  /** So, of a machine that the job runs on and that was updated in window `o`: in the windows from
      `o` on that it has not been tried in, it is due exactly from `o` plus its days, `n`. */
  lemma NextTurn(cfg: Config, enrolled: set<Address>, record: map<string, Seen>, s: Server, n: int, o: int, now: int)
    requires s.window.Some? && IsWindow(s.window.value) && Length(s.window.value) <= 12 * HOUR && n >= 1
    requires if s.everyDays != 0 then n == s.everyDays else n == 7
    requires s.name !in ManagedNames(cfg.servers) && UpdateMonitor.Member(cfg, enrolled, s)
    requires OpensAt(s.window.value, o) && SeenOf(record, s.name).updated.Some?
    requires o <= SeenOf(record, s.name).updated.value <= o + 12 * HOUR
    requires Opening(s.window.value, now).Some? && o <= Opening(s.window.value, now).value
    requires SeenOf(record, s.name).tried != Opening(s.window.value, now)
    ensures IsDue(cfg, enrolled, record, s, now) <==> Opening(s.window.value, now).value >= o + n * DAY
  {
    PeriodIsExact(s.window.value, n);
    assert OnTime(s.window.value, n, o, SeenOf(record, s.name).updated.value, now);
  }

  predicate DueBy(w: Window, n: int, seen: Seen, now: int) {
    Opening(w, now).Some? && seen.tried != Opening(w, now) && !Recent(seen.updated, n, now)
  }

  /** What makes a machine of the job due: its window, what was tried and when it was updated. */
  lemma DueIsDueBy(cfg: Config, enrolled: set<Address>, record: map<string, Seen>, s: Server, now: int)
    requires s.window.Some? && IsWindow(s.window.value)
    requires s.name !in ManagedNames(cfg.servers) && UpdateMonitor.Member(cfg, enrolled, s)
    ensures IsDue(cfg, enrolled, record, s, now) <==> DueBy(s.window.value, EveryDays(s), SeenOf(record, s.name), now)
  {
  }

  /** Of two openings of one window, both past, the one whose window is open now is the later. */
  lemma TheOpenOneIsLater(w: Window, now: int, o: int)
    requires IsWindow(w) && Opening(w, now).Some? && OpensAt(w, o) && o <= now
    ensures o <= Opening(w, now).value
  {
    OpeningIsTheOpenWindow(w, now, Opening(w, now).value);
    SameTimeOfDay(Opening(w, now).value, o);
  }
}
