/** One machine with a window of its own, over any number of ticks of the window loop: in which windows
    it is run, when a run that did not update it is made up for, and how far apart updates are. A
    window is known by the day on which it opens, `start` after midnight. */
module WindowHistory {
  import opened Fleet
  import opened Schedule
  import opened UpdateWindow

  /** A tick as one machine meets it. `day`: when the window that is open now opened; `accepts`: its run
      would be accepted if it were due; `at`: when that run would date it, if it would update it. */
  datatype Tick = Tick(now: int, day: Option<int>, accepts: bool, at: Option<int>)

  /** What is on record: the window last tried, and the last update. */
  datatype Entry = Entry(tried: Option<int>, updated: Option<int>)

  const BLANK := Entry(None, None)

  /** An accepted run: in which window, and did it update the machine? */
  datatype Ran = Ran(day: int, updated: bool)

  predicate Runs(n: int, e: Entry, t: Tick) {
    t.day.Some? && e.tried != t.day && !Recent(e.updated, n, t.now) && t.accepts
  }

  /** An accepted run marks the window as tried, and dates the machine only if it updated it. */
  function After(n: int, e: Entry, t: Tick): Entry {
    if Runs(n, e, t) then Entry(t.day, if t.at.Some? then t.at else e.updated) else e
  }

  function RanAt(n: int, e: Entry, t: Tick): seq<Ran> {
    if Runs(n, e, t) then [Ran(t.day.value, t.at.Some?)] else []
  }

  function EntryAfter(n: int, first: Entry, ticks: seq<Tick>): Entry {
    if ticks == [] then first else After(n, EntryAfter(n, first, ticks[..|ticks| - 1]), ticks[|ticks| - 1])
  }

  function RunsIn(n: int, first: Entry, ticks: seq<Tick>): seq<Ran> {
    if ticks == [] then []
    else
      var front := ticks[..|ticks| - 1];
      RunsIn(n, first, front) + RanAt(n, EntryAfter(n, first, front), ticks[|ticks| - 1])
  }

  lemma OneTickMore(n: int, first: Entry, ticks: seq<Tick>, t: Tick)
    ensures EntryAfter(n, first, ticks + [t]) == After(n, EntryAfter(n, first, ticks), t)
    ensures RunsIn(n, first, ticks + [t]) == RunsIn(n, first, ticks) + RanAt(n, EntryAfter(n, first, ticks), t)
  {
    assert (ticks + [t])[..|ticks + [t]| - 1] == ticks;
  }

  /** The window is open at the tick, and nothing is dated before it opened. */
  predicate IsOpen(start: int, t: Tick) {
    t.day.Some? ==>
      && t.day.value * DAY + start <= t.now < t.day.value * DAY + start + SLACK
      && (t.at.Some? ==> t.day.value * DAY + start <= t.at.value)
  }

  /** The clock does not run backwards. */
  ghost predicate InTime(start: int, ticks: seq<Tick>) {
    && (forall i, j | 0 <= i < j < |ticks| :: ticks[i].now <= ticks[j].now)
    && (forall t | t in ticks :: IsOpen(start, t))
  }

  /** An update is over within twelve hours of the opening of its window. */
  predicate IsPrompt(start: int, t: Tick) {
    t.day.Some? && t.at.Some? ==> t.at.value <= t.day.value * DAY + start + SLACK
  }

  ghost predicate Prompt(start: int, ticks: seq<Tick>) {
    forall t | t in ticks :: IsPrompt(start, t)
  }

  lemma TimeSoFar(start: int, ticks: seq<Tick>, t: Tick)
    requires InTime(start, ticks + [t])
    ensures InTime(start, ticks) && IsOpen(start, t) && (ticks != [] ==> ticks[|ticks| - 1].now <= t.now)
    ensures Prompt(start, ticks + [t]) ==> Prompt(start, ticks) && IsPrompt(start, t)
  {
    var more := ticks + [t];
    assert t in more && forall u | u in ticks :: u in more;
    assert more[|ticks|] == t && forall k | 0 <= k < |ticks| :: more[k] == ticks[k];
  }

  /** Would a run have been accepted at some tick in the window of that day? */
  ghost predicate Offered(ticks: seq<Tick>, day: int) {
    exists t :: t in ticks && t.accepts && t.day == Some(day)
  }

  ghost predicate RanOn(h: seq<Ran>, day: int) {
    exists k :: 0 <= k < |h| && h[k].day == day
  }

  /** No run that updated the machine lies less than `n` days before. */
  ghost predicate IsFree(h: seq<Ran>, n: int, day: int) {
    forall k | 0 <= k < |h| && h[k].updated && h[k].day < day :: h[k].day + n <= day
  }

  // -- what the ticks keep ---------------------------------------------------

  ghost predicate InOrder(h: seq<Ran>) {
    forall i, j | 0 <= i < j < |h| :: h[i].day < h[j].day
  }

  /** After an update, no run at all for `n` days. */
  ghost predicate Spaced(h: seq<Ran>, n: int) {
    forall i, j | 0 <= i < j < |h| && h[i].updated :: h[i].day + n <= h[j].day
  }

  /** The last window in which it was updated. */
  function LastUpdate(h: seq<Ran>): Option<int> {
    if h == [] then None
    else if h[|h| - 1].updated then Some(h[|h| - 1].day)
    else LastUpdate(h[..|h| - 1])
  }

  lemma {:induction false} LastUpdateIsLast(h: seq<Ran>)
    requires InOrder(h)
    ensures LastUpdate(h).None? <==> forall k | 0 <= k < |h| :: !h[k].updated
    ensures LastUpdate(h).Some? ==> Ran(LastUpdate(h).value, true) in h
    ensures LastUpdate(h).Some? ==> forall k | 0 <= k < |h| && h[k].updated :: h[k].day <= LastUpdate(h).value
  {
    if h != [] {
      var front, last := h[..|h| - 1], h[|h| - 1];
      assert h == front + [last];
      LastUpdateIsLast(front);
    }
  }

  /** The record tells when the machine was last tried and last updated. `now` is the last tick. */
  ghost predicate OnRecord(start: int, n: int, first: Entry, h: seq<Ran>, e: Entry, now: int) {
    && (h == [] ==> e == first)
    && (h != [] ==> e.tried == Some(h[|h| - 1].day) && h[|h| - 1].day * DAY + start <= now)
    && (LastUpdate(h).Some? ==> e.updated.Some? && LastUpdate(h).value * DAY + start <= e.updated.value)
    && (h != [] && LastUpdate(h).None? ==> !Recent(e.updated, n, now))
  }

  ghost predicate IsHistory(start: int, n: int, first: Entry, h: seq<Ran>, e: Entry, now: int) {
    InOrder(h) && Spaced(h, n) && OnRecord(start, n, first, h, e, now)
  }

  /** The last update on record was prompt. */
  ghost predicate DatedSoon(start: int, h: seq<Ran>, e: Entry) {
    LastUpdate(h).Some? ==> e.updated.Some? && e.updated.value <= LastUpdate(h).value * DAY + start + SLACK
  }

  /** A run finds the machine in a later window than the last, and free. */
  lemma RunIsLater(start: int, n: int, first: Entry, h: seq<Ran>, e: Entry, before: int, t: Tick)
    requires n >= 1 && before <= t.now && Runs(n, e, t) && IsOpen(start, t) && h != []
    requires IsHistory(start, n, first, h, e, before)
    ensures h[|h| - 1].day < t.day.value
    ensures LastUpdate(h).Some? ==> LastUpdate(h).value + n <= t.day.value
  {
  }

  lemma RunKeepsHistory(start: int, n: int, first: Entry, h: seq<Ran>, e: Entry, before: int, t: Tick)
    requires n >= 1 && before <= t.now && Runs(n, e, t) && IsOpen(start, t)
    requires IsHistory(start, n, first, h, e, before)
    ensures IsHistory(start, n, first, h + RanAt(n, e, t), After(n, e, t), t.now)
  {
    if h != [] {
      RunIsLater(start, n, first, h, e, before, t);
    }
    OneMoreInOrder(h, n, Ran(t.day.value, t.at.Some?));
    RunIsOnRecord(start, n, first, h, e, before, t);
  }

  lemma OneMoreInOrder(h: seq<Ran>, n: int, r: Ran)
    requires InOrder(h) && Spaced(h, n) && (h != [] ==> h[|h| - 1].day < r.day)
    requires LastUpdate(h).Some? ==> LastUpdate(h).value + n <= r.day
    ensures InOrder(h + [r]) && Spaced(h + [r], n)
  {
    LastUpdateIsLast(h);
  }

  lemma RunIsOnRecord(start: int, n: int, first: Entry, h: seq<Ran>, e: Entry, before: int, t: Tick)
    requires before <= t.now && Runs(n, e, t) && IsOpen(start, t) && OnRecord(start, n, first, h, e, before)
    ensures OnRecord(start, n, first, h + RanAt(n, e, t), After(n, e, t), t.now)
  {
    var more := h + RanAt(n, e, t);
    assert more[..|more| - 1] == h && more[|more| - 1] == Ran(t.day.value, t.at.Some?);
  }

  lemma NoRunKeepsHistory(start: int, n: int, first: Entry, h: seq<Ran>, e: Entry, before: int, t: Tick)
    requires IsHistory(start, n, first, h, e, before) && before <= t.now && !Runs(n, e, t)
    ensures IsHistory(start, n, first, h + RanAt(n, e, t), After(n, e, t), t.now)
  {
    assert h + [] == h;
  }

  lemma HistoryStep(start: int, n: int, first: Entry, ticks: seq<Tick>, before: int, t: Tick)
    requires n >= 1 && before <= t.now && IsOpen(start, t)
    requires IsHistory(start, n, first, RunsIn(n, first, ticks), EntryAfter(n, first, ticks), before)
    ensures IsHistory(start, n, first, RunsIn(n, first, ticks + [t]), EntryAfter(n, first, ticks + [t]), t.now)
  {
    var h, e := RunsIn(n, first, ticks), EntryAfter(n, first, ticks);
    OneTickMore(n, first, ticks, t);
    if Runs(n, e, t) {
      RunKeepsHistory(start, n, first, h, e, before, t);
    } else {
      NoRunKeepsHistory(start, n, first, h, e, before, t);
    }
  }

  /** Over any ticks, runs are in ever later windows, none within its days of an update, and the record
      tells when the last ones were. */
  lemma {:induction false} HistoryKept(start: int, n: int, first: Entry, ticks: seq<Tick>)
    requires n >= 1 && InTime(start, ticks) && ticks != []
    ensures IsHistory(start, n, first, RunsIn(n, first, ticks), EntryAfter(n, first, ticks), ticks[|ticks| - 1].now)
  {
    var front, t := ticks[..|ticks| - 1], ticks[|ticks| - 1];
    assert ticks == front + [t];
    TimeSoFar(start, front, t);
    if front == [] {
      HistoryStep(start, n, first, front, t.now, t);
    } else {
      HistoryKept(start, n, first, front);
      HistoryStep(start, n, first, front, front[|front| - 1].now, t);
    }
  }

  lemma {:induction false} PromptlyDated(start: int, n: int, first: Entry, ticks: seq<Tick>)
    requires InTime(start, ticks) && Prompt(start, ticks)
    ensures DatedSoon(start, RunsIn(n, first, ticks), EntryAfter(n, first, ticks))
  {
    if ticks != [] {
      var front, t := ticks[..|ticks| - 1], ticks[|ticks| - 1];
      assert ticks == front + [t];
      TimeSoFar(start, front, t);
      PromptlyDated(start, n, first, front);
      DatedStep(start, n, RunsIn(n, first, front), EntryAfter(n, first, front), t);
    }
  }

  lemma DatedStep(start: int, n: int, h: seq<Ran>, e: Entry, t: Tick)
    requires DatedSoon(start, h, e) && IsPrompt(start, t)
    ensures DatedSoon(start, h + RanAt(n, e, t), After(n, e, t))
  {
    if Runs(n, e, t) {
      assert (h + RanAt(n, e, t))[..|h + RanAt(n, e, t)| - 1] == h;
    } else {
      assert h + RanAt(n, e, t) == h;
    }
  }

  /** Over any ticks: of two runs of a machine the later is in a later window; and after a run that
      updated it there is none for its days. */
  lemma UpdatesAreDaysApart(start: int, n: int, first: Entry, ticks: seq<Tick>, i: nat, j: nat)
    requires n >= 1 && InTime(start, ticks) && i < j < |RunsIn(n, first, ticks)|
    ensures var a, b := RunsIn(n, first, ticks)[i], RunsIn(n, first, ticks)[j];
            a.day < b.day && (a.updated ==> a.day + n <= b.day)
  {
    HistoryKept(start, n, first, ticks);
  }

  // -- in which windows it is run --------------------------------------------

  /** At a tick in an open window, a machine that has been run before is run exactly when that is a later
      window than the last, no update lies less than its days before, and the run is accepted. */
  lemma RunsWhenFree(start: int, n: int, first: Entry, h: seq<Ran>, e: Entry, before: int, t: Tick)
    requires n >= 1 && before <= t.now && t.day.Some? && IsOpen(start, t) && h != []
    requires IsHistory(start, n, first, h, e, before) && DatedSoon(start, h, e)
    ensures h[|h| - 1].day <= t.day.value
    ensures Runs(n, e, t) <==> h[|h| - 1].day < t.day.value && IsFree(h, n, t.day.value) && t.accepts
  {
    LastDecides(h, n, t.day.value);
    if LastUpdate(h).Some? {
      RecentInDays(start, n, LastUpdate(h).value, e.updated.value, t);
    }
  }

  lemma RecentInDays(start: int, n: int, u: int, updated: int, t: Tick)
    requires t.day.Some? && IsOpen(start, t) && u * DAY + start <= updated <= u * DAY + start + SLACK
    ensures !Recent(Some(updated), n, t.now) <==> u + n <= t.day.value
  {
  }

  /** After the last run, the last update decides. */
  lemma LastDecides(h: seq<Ran>, n: int, day: int)
    requires InOrder(h) && h != []
    ensures h[|h| - 1].day < day ==>
              (IsFree(h, n, day) <==> LastUpdate(h).None? || LastUpdate(h).value + n <= day)
  {
    LastUpdateIsLast(h);
    if LastUpdate(h).Some? {
      var k :| 0 <= k < |h| && h[k] == Ran(LastUpdate(h).value, true);
      assert h[k].day <= h[|h| - 1].day;
    }
  }

  lemma OfferedSnoc(ticks: seq<Tick>, t: Tick, day: int)
    ensures Offered(ticks + [t], day) <==> Offered(ticks, day) || (t.accepts && t.day == Some(day))
  {
    assert t in ticks + [t];
    assert forall u | u in ticks :: u in ticks + [t];
  }

  lemma OffersAreNotLater(start: int, ticks: seq<Tick>, t: Tick, day: int)
    requires InTime(start, ticks + [t]) && Offered(ticks, day) && t.day.Some?
    ensures day <= t.day.value
  {
    var u :| u in ticks && u.accepts && u.day == Some(day);
    var i :| 0 <= i < |ticks| && ticks[i] == u;
    var more := ticks + [t];
    assert more[i] == u && more[|ticks|] == t && u in more && t in more;
  }

  lemma RanOnSnoc(h: seq<Ran>, r: Ran, day: int)
    ensures RanOn(h + [r], day) <==> RanOn(h, day) || r.day == day
  {
    assert (h + [r])[|h|] == r;
    if RanOn(h, day) {
      var k :| 0 <= k < |h| && h[k].day == day;
      assert (h + [r])[k].day == day;
    }
  }

  lemma FreeSnoc(h: seq<Ran>, n: int, r: Ran, day: int)
    requires day <= r.day
    ensures IsFree(h + [r], n, day) <==> IsFree(h, n, day)
  {
    assert forall k | 0 <= k < |h| :: (h + [r])[k] == h[k];
  }

  /** From the machine's first run on, a window in which a run was offered is one it was run in exactly
      when no update lay less than its days before. */
  ghost predicate RunWhenFree(h: seq<Ran>, n: int, day: int) {
    h != [] && h[0].day <= day ==> (RanOn(h, day) <==> IsFree(h, n, day))
  }

  /** A window the machine was run in was free. */
  lemma LastIsFree(h: seq<Ran>, n: int)
    requires InOrder(h) && Spaced(h, n) && h != []
    ensures RanOn(h, h[|h| - 1].day) && IsFree(h, n, h[|h| - 1].day)
  {
  }

  lemma AfterTheLast(h: seq<Ran>, day: int)
    requires InOrder(h) && h != [] && h[|h| - 1].day < day
    ensures !RanOn(h, day) && h[0].day < day
  {
  }

  lemma NoRunKeeps(start: int, n: int, first: Entry, h: seq<Ran>, e: Entry, before: int, t: Tick)
    requires n >= 1 && before <= t.now && IsOpen(start, t) && t.accepts && t.day.Some?
    requires IsHistory(start, n, first, h, e, before) && DatedSoon(start, h, e) && !Runs(n, e, t)
    ensures RunWhenFree(h, n, t.day.value)
  {
    if h != [] {
      RunsWhenFree(start, n, first, h, e, before, t);
      if t.day.value == h[|h| - 1].day {
        LastIsFree(h, n);
      } else {
        AfterTheLast(h, t.day.value);
      }
    }
  }

  lemma RunKeeps(start: int, n: int, first: Entry, h: seq<Ran>, e: Entry, before: int, t: Tick, day: int)
    requires n >= 1 && before <= t.now && IsOpen(start, t) && Runs(n, e, t) && day <= t.day.value
    requires IsHistory(start, n, first, h, e, before) && DatedSoon(start, h, e)
    requires day < t.day.value ==> RunWhenFree(h, n, day)
    ensures RunWhenFree(h + [Ran(t.day.value, t.at.Some?)], n, day)
  {
    var r := Ran(t.day.value, t.at.Some?);
    RanOnSnoc(h, r, day);
    FreeSnoc(h, n, r, day);
    if h != [] {
      RunsWhenFree(start, n, first, h, e, before, t);
    }
  }

  lemma TickKeeps(start: int, n: int, first: Entry, ticks: seq<Tick>, t: Tick, day: int)
    requires n >= 1 && InTime(start, ticks + [t]) && Prompt(start, ticks + [t]) && ticks != []
    requires Offered(ticks + [t], day) && (Offered(ticks, day) ==> RunWhenFree(RunsIn(n, first, ticks), n, day))
    ensures RunWhenFree(RunsIn(n, first, ticks + [t]), n, day)
  {
    var h, e, before := RunsIn(n, first, ticks), EntryAfter(n, first, ticks), ticks[|ticks| - 1].now;
    TimeSoFar(start, ticks, t);
    HistoryKept(start, n, first, ticks);
    PromptlyDated(start, n, first, ticks);
    OneTickMore(n, first, ticks, t);
    OfferedSnoc(ticks, t, day);
    if Runs(n, e, t) {
      if Offered(ticks, day) {
        OffersAreNotLater(start, ticks, t, day);
      }
      RunKeeps(start, n, first, h, e, before, t, day);
    } else {
      assert h + [] == h;
      if t.accepts && t.day == Some(day) {
        NoRunKeeps(start, n, first, h, e, before, t);
      }
    }
  }

  /** Over any ticks: from its first run on, a machine is run in exactly those of the windows offered that
      no update lies less than its days before. */
  lemma {:induction false} RunExactlyWhenFree(start: int, n: int, first: Entry, ticks: seq<Tick>, day: int)
    requires n >= 1 && InTime(start, ticks) && Prompt(start, ticks) && Offered(ticks, day)
    ensures RunWhenFree(RunsIn(n, first, ticks), n, day)
  {
    var front, t := ticks[..|ticks| - 1], ticks[|ticks| - 1];
    assert ticks == front + [t];
    TimeSoFar(start, front, t);
    OfferedSnoc(front, t, day);
    if front == [] {
      OneTick(n, first, t);
    } else {
      if Offered(front, day) {
        RunExactlyWhenFree(start, n, first, front, day);
      }
      TickKeeps(start, n, first, front, t, day);
    }
  }

  lemma OneTick(n: int, first: Entry, t: Tick)
    requires t.day.Some?
    ensures RunWhenFree(RunsIn(n, first, [t]), n, t.day.value)
  {
    OneTickMore(n, first, [], t);
    assert [] + [t] == [t] && [] + RanAt(n, first, t) == RanAt(n, first, t);
    assert Runs(n, first, t) ==> RanAt(n, first, t)[0].day == t.day.value;
  }

  lemma {:induction false} NotRunNotDated(n: int, first: Entry, ticks: seq<Tick>)
    ensures RunsIn(n, first, ticks) == [] ==> EntryAfter(n, first, ticks) == first
  {
    if ticks != [] {
      NotRunNotDated(n, first, ticks[..|ticks| - 1]);
    }
  }

  lemma {:induction false} FirstRunWasOffered(n: int, first: Entry, ticks: seq<Tick>)
    requires RunsIn(n, first, ticks) != []
    ensures Offered(ticks, RunsIn(n, first, ticks)[0].day)
  {
    var front, t := ticks[..|ticks| - 1], ticks[|ticks| - 1];
    assert ticks == front + [t];
    OfferedSnoc(front, t, RunsIn(n, first, ticks)[0].day);
    if RunsIn(n, first, front) != [] {
      FirstRunWasOffered(n, first, front);
    }
  }

  lemma OfferStep(start: int, n: int, ticks: seq<Tick>, t: Tick, day: int)
    requires InTime(start, ticks + [t]) && Offered(ticks + [t], day)
    requires Offered(ticks, day) ==> RunsIn(n, BLANK, ticks) != [] && RunsIn(n, BLANK, ticks)[0].day <= day
    ensures RunsIn(n, BLANK, ticks + [t]) != [] && RunsIn(n, BLANK, ticks + [t])[0].day <= day
  {
    OfferedSnoc(ticks, t, day);
    OneTickMore(n, BLANK, ticks, t);
    if !Offered(ticks, day) {
      if RunsIn(n, BLANK, ticks) != [] {
        FirstRunWasOffered(n, BLANK, ticks);
        OffersAreNotLater(start, ticks, t, RunsIn(n, BLANK, ticks)[0].day);
      } else {
        NotRunNotDated(n, BLANK, ticks);
      }
    }
  }

  /** A machine with no record is run in the first window in which a run is offered. */
  lemma {:induction false} FirstOfferIsTaken(start: int, n: int, ticks: seq<Tick>, day: int)
    requires InTime(start, ticks) && Offered(ticks, day)
    ensures RunsIn(n, BLANK, ticks) != [] && RunsIn(n, BLANK, ticks)[0].day <= day
  {
    var front, t := ticks[..|ticks| - 1], ticks[|ticks| - 1];
    assert ticks == front + [t];
    TimeSoFar(start, front, t);
    if Offered(front, day) {
      FirstOfferIsTaken(start, n, front, day);
    }
    OfferStep(start, n, front, t, day);
  }

  // -- what that means for an owner ------------------------------------------

  lemma NextRunIsBy(h: seq<Ran>, n: int, i: nat, day: int)
    requires InOrder(h) && RunWhenFree(h, n, day) && i < |h| && h[i].day < day
    requires (i + 1 < |h| && h[i + 1].day <= day) || IsFree(h, n, day)
    ensures i + 1 < |h| && h[i + 1].day <= day
  {
    if IsFree(h, n, day) {
      assert h[0].day <= h[i].day;
      var k :| 0 <= k < |h| && h[k].day == day;
      assert i < k;
    }
  }

  /** Updated in one window, and offered a run in the window its days later: it is run in that one next. */
  lemma UpdatedAgainOnTheDay(start: int, n: int, first: Entry, ticks: seq<Tick>, i: nat)
    requires n >= 1 && InTime(start, ticks) && Prompt(start, ticks)
    requires i < |RunsIn(n, first, ticks)| && RunsIn(n, first, ticks)[i].updated
    requires Offered(ticks, RunsIn(n, first, ticks)[i].day + n)
    ensures var h := RunsIn(n, first, ticks); i + 1 < |h| && h[i + 1].day == h[i].day + n
  {
    var h := RunsIn(n, first, ticks);
    HistoryKept(start, n, first, ticks);
    RunExactlyWhenFree(start, n, first, ticks, h[i].day + n);
    DaysLaterIsFree(h, n, i);
    NextRunIsBy(h, n, i, h[i].day + n);
  }

  lemma DaysLaterIsFree(h: seq<Ran>, n: int, i: nat)
    requires InOrder(h) && Spaced(h, n) && i < |h| && h[i].updated
    ensures IsFree(h, n, h[i].day + n)
  {
    forall k | 0 <= k < |h| && h[k].updated && h[k].day < h[i].day + n
      ensures h[k].day + n <= h[i].day + n
    {
    }
  }

  /** Not updated by its run, whatever the reason: the next run is no later than the next window in which
      one is offered. */
  lemma RetriedWhenNextOffered(start: int, n: int, first: Entry, ticks: seq<Tick>, i: nat, day: int)
    requires n >= 1 && InTime(start, ticks) && Prompt(start, ticks)
    requires i < |RunsIn(n, first, ticks)| && !RunsIn(n, first, ticks)[i].updated
    requires Offered(ticks, day) && RunsIn(n, first, ticks)[i].day < day
    ensures var h := RunsIn(n, first, ticks); i + 1 < |h| && h[i + 1].day <= day
  {
    var h := RunsIn(n, first, ticks);
    HistoryKept(start, n, first, ticks);
    RunExactlyWhenFree(start, n, first, ticks, day);
    FreeOrRunBefore(h, n, i, day);
    NextRunIsBy(h, n, i, day);
  }

  lemma FreeOrRunBefore(h: seq<Ran>, n: int, i: nat, day: int)
    requires InOrder(h) && Spaced(h, n) && i < |h| && !h[i].updated && h[i].day < day
    ensures (i + 1 < |h| && h[i + 1].day <= day) || IsFree(h, n, day)
  {
    if !(i + 1 < |h| && h[i + 1].day <= day) {
      forall k | 0 <= k < |h| && h[k].updated && h[k].day < day
        ensures h[k].day + n <= day
      {
        assert k <= i;
      }
    }
  }
}
