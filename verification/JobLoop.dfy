/** The scheduler's loop for one job on a daily or weekly schedule: it sleeps in slices of at most
    a minute, and runs at the due instant without asking again. How long each thing takes is the
    environment's choice; no sleep ends early and the clock does not run backwards. */
module JobLoop {
  import opened Fleet
  import opened Schedule

  const TICK := 60 * SECOND

  /** What one turn of the loop meets: the time from asking `next_run` to computing the wait, how
      far past its end a sleep lasts, and how long `run` takes (nothing, when it is refused). */
  datatype Turn = Turn(looking: nat, overshoot: nat, running: nat)

  /** A call of `run` for the instant `due`, made at `at` and over at `end`. */
  datatype Call = Call(due: int, at: int, end: int)

  /** A capped sleep towards `due` that ended at `woke`. */
  datatype Nap = Nap(due: int, woke: int)

  /** Where the loop stands. */
  datatype Progress = Progress(now: int, calls: seq<Call>, naps: seq<Nap>)

  function Due(spec: Spec, parse: string -> Option<int>, now: int): (due: int)
    requires IsClock(spec, parse)
    ensures NextRun(spec, now, None, parse) == Ok(Some(due)) && now < due && Matches(spec, parse, due)
  {
    NextRunMatches(spec, now, None, parse);
    NextRun(spec, now, None, parse).value.value
  }

  /** How long the loop has to wait when it computes it in turn `t`, begun at `now`. */
  function Wait(spec: Spec, parse: string -> Option<int>, now: int, t: Turn): int
    requires IsClock(spec, parse)
  {
    Due(spec, parse, now) - (now + t.looking)
  }

  function OneTurn(spec: Spec, parse: string -> Option<int>, p: Progress, t: Turn): Progress
    requires IsClock(spec, parse)
  {
    var due, wait, looked := Due(spec, parse, p.now), Wait(spec, parse, p.now, t), p.now + t.looking;
    if wait > TICK then
      var woke := looked + TICK + t.overshoot;
      Progress(woke, p.calls, p.naps + [Nap(due, woke)])
    else
      var at := if wait > 0 then looked + wait + t.overshoot else looked;
      Progress(at + t.running, p.calls + [Call(due, at, at + t.running)], p.naps)
  }

  /** The loop, turn by turn. */
  function Turns(spec: Spec, parse: string -> Option<int>, start: int, turns: seq<Turn>): Progress
    requires IsClock(spec, parse)
  {
    if turns == [] then Progress(start, [], [])
    else OneTurn(spec, parse, Turns(spec, parse, start, turns[..|turns| - 1]), turns[|turns| - 1])
  }

  /** Turn `i`, with more than a minute to wait, sleeps one and wakes at or after the instant it was
      sleeping towards. */
  predicate Oversleeps(spec: Spec, parse: string -> Option<int>, start: int, turns: seq<Turn>, i: nat)
    requires IsClock(spec, parse) && i < |turns|
  {
    var wait := Wait(spec, parse, Turns(spec, parse, start, turns[..i]).now, turns[i]);
    wait > 60_000_000 && turns[i].overshoot >= wait - 60_000_000
  }

  ghost predicate Called(calls: seq<Call>, d: int) {
    exists c :: c in calls && c.due == d
  }

  /** `d` passed while an earlier instant's run was due or under way. */
  ghost predicate Overtaken(calls: seq<Call>, d: int) {
    exists c :: c in calls && c.due < d <= c.end
  }

  ghost predicate SleptThrough(naps: seq<Nap>, d: int) {
    exists n :: n in naps && n.due <= d <= n.woke
  }

  ghost predicate InOrder(calls: seq<Call>) {
    && (forall c | c in calls :: c.due <= c.at <= c.end)
    && (forall i, j | 0 <= i < j < |calls| :: calls[i].end < calls[j].due)
  }

  /** Calls lie wholly before or after a sleep that lasted past its due instant. */
  ghost predicate Apart(calls: seq<Call>, naps: seq<Nap>) {
    forall c, n | c in calls && n in naps && n.due <= n.woke :: c.end < n.due || n.woke < c.due
  }

  ghost predicate Covered(spec: Spec, parse: string -> Option<int>, calls: seq<Call>, naps: seq<Nap>, start: int,
                          now: int)
    requires IsClock(spec, parse)
  {
    forall d | start < d <= now && Matches(spec, parse, d) ::
      Called(calls, d) || Overtaken(calls, d) || SleptThrough(naps, d)
  }

  lemma CoveredByCall(spec: Spec, parse: string -> Option<int>, calls: seq<Call>, naps: seq<Nap>, start: int,
                      after: int, c: Call)
    requires IsClock(spec, parse) && start <= after && Covered(spec, parse, calls, naps, start, after)
    requires NextRun(spec, after, None, parse) == Ok(Some(c.due)) && c.due <= c.at <= c.end
    ensures Covered(spec, parse, calls + [c], naps, start, c.end)
  {
    assert c in calls + [c];
    forall d | start < d <= c.end && Matches(spec, parse, d)
      ensures Called(calls + [c], d) || Overtaken(calls + [c], d) || SleptThrough(naps, d)
    {
      if d <= after {
        assert forall e | e in calls :: e in calls + [c];
      } else {
        NextRunIsLeast(spec, after, d, None, parse);
      }
    }
  }

  lemma CoveredByNap(spec: Spec, parse: string -> Option<int>, calls: seq<Call>, naps: seq<Nap>, start: int,
                     after: int, n: Nap)
    requires IsClock(spec, parse) && start <= after && Covered(spec, parse, calls, naps, start, after)
    requires NextRun(spec, after, None, parse) == Ok(Some(n.due))
    ensures Covered(spec, parse, calls, naps + [n], start, n.woke)
  {
    assert n in naps + [n];
    forall d | start < d <= n.woke && Matches(spec, parse, d)
      ensures Called(calls, d) || Overtaken(calls, d) || SleptThrough(naps + [n], d)
    {
      if d <= after {
        assert forall m | m in naps :: m in naps + [n];
      } else {
        NextRunIsLeast(spec, after, d, None, parse);
      }
    }
  }

  ghost predicate Booked(spec: Spec, parse: string -> Option<int>, calls: seq<Call>, naps: seq<Nap>, start: int,
                         now: int)
    requires IsClock(spec, parse)
  {
    && start <= now && InOrder(calls) && Apart(calls, naps)
    && (forall c | c in calls :: start < c.due && c.end <= now && Matches(spec, parse, c.due))
    && (forall n | n in naps :: start < n.due && n.woke <= now && Matches(spec, parse, n.due))
    && Covered(spec, parse, calls, naps, start, now)
  }

  lemma BookNap(spec: Spec, parse: string -> Option<int>, calls: seq<Call>, naps: seq<Nap>, start: int, after: int,
                n: Nap)
    requires IsClock(spec, parse) && Booked(spec, parse, calls, naps, start, after)
    requires NextRun(spec, after, None, parse) == Ok(Some(n.due)) && after < n.due && after <= n.woke &&
             Matches(spec, parse, n.due)
    ensures Booked(spec, parse, calls, naps + [n], start, n.woke)
  {
    CoveredByNap(spec, parse, calls, naps, start, after, n);
  }

  lemma BookCall(spec: Spec, parse: string -> Option<int>, calls: seq<Call>, naps: seq<Nap>, start: int, after: int,
                 c: Call)
    requires IsClock(spec, parse) && Booked(spec, parse, calls, naps, start, after)
    requires NextRun(spec, after, None, parse) == Ok(Some(c.due)) && after < c.due <= c.at <= c.end &&
             Matches(spec, parse, c.due)
    ensures Booked(spec, parse, calls + [c], naps, start, c.end)
  {
    CoveredByCall(spec, parse, calls, naps, start, after, c);
    var more := calls + [c];
    forall i, j | 0 <= i < j < |more|
      ensures more[i].end < more[j].due
    {
      assert calls[i] in calls;
    }
  }

  ghost predicate NoneIsMissed(spec: Spec, parse: string -> Option<int>, start: int, p: Progress)
    requires IsClock(spec, parse)
  {
    forall d | start < d <= p.now && Matches(spec, parse, d) :: Called(p.calls, d) || Overtaken(p.calls, d)
  }

  lemma TurnIsBooked(spec: Spec, parse: string -> Option<int>, start: int, p: Progress, t: Turn)
    requires IsClock(spec, parse) && Booked(spec, parse, p.calls, p.naps, start, p.now)
    ensures var q := OneTurn(spec, parse, p, t); Booked(spec, parse, q.calls, q.naps, start, q.now)
  {
    var due, q := Due(spec, parse, p.now), OneTurn(spec, parse, p, t);
    if Wait(spec, parse, p.now, t) > TICK {
      BookNap(spec, parse, p.calls, p.naps, start, p.now, Nap(due, q.now));
    } else {
      BookCall(spec, parse, p.calls, p.naps, start, p.now, q.calls[|p.calls|]);
    }
  }

  lemma {:induction false} TurnsAreBooked(spec: Spec, parse: string -> Option<int>, start: int, turns: seq<Turn>)
    requires IsClock(spec, parse)
    ensures var p := Turns(spec, parse, start, turns); Booked(spec, parse, p.calls, p.naps, start, p.now)
  {
    if turns != [] {
      var front := turns[..|turns| - 1];
      TurnsAreBooked(spec, parse, start, front);
      TurnIsBooked(spec, parse, start, Turns(spec, parse, start, front), turns[|turns| - 1]);
    }
  }

  /** A nap outlasts its instant exactly when its turn overslept. */
  lemma {:induction false} NapsAreTurns(spec: Spec, parse: string -> Option<int>, start: int, turns: seq<Turn>)
    requires IsClock(spec, parse)
    ensures (exists n :: n in Turns(spec, parse, start, turns).naps && n.woke >= n.due)
       <==> (exists i :: 0 <= i < |turns| && Oversleeps(spec, parse, start, turns, i))
  {
    if turns != [] {
      var front, last := turns[..|turns| - 1], |turns| - 1;
      NapsAreTurns(spec, parse, start, front);
      forall i | 0 <= i < last
        ensures Oversleeps(spec, parse, start, front, i) == Oversleeps(spec, parse, start, turns, i)
      {
        assert front[..i] == turns[..i];
      }
      var p, q := Turns(spec, parse, start, front), Turns(spec, parse, start, turns);
      assert Oversleeps(spec, parse, start, turns, last) <==>
             |q.naps| > |p.naps| && q.naps[|p.naps|].woke >= q.naps[|p.naps|].due;
      assert q.naps == p.naps || (q.naps == p.naps + [q.naps[|p.naps|]]);
    }
  }

  /** Every instant of the schedule that passes is called, unless it is overtaken by a running job or
      slept through. */
  lemma CalledOvertakenOrSleptThrough(spec: Spec, parse: string -> Option<int>, start: int, turns: seq<Turn>, d: int)
    requires IsClock(spec, parse) && Matches(spec, parse, d)
    requires start < d <= Turns(spec, parse, start, turns).now
    ensures var p := Turns(spec, parse, start, turns);
            Called(p.calls, d) || Overtaken(p.calls, d) || SleptThrough(p.naps, d)
  {
    TurnsAreBooked(spec, parse, start, turns);
  }

  /** None is slept through, and so every one called or overtaken, exactly when no turn oversleeps: no
      turn that has more than a minute to wait overshoots its slice by the rest of the wait. */
  lemma NoneIsMissedIff(spec: Spec, parse: string -> Option<int>, start: int, turns: seq<Turn>)
    requires IsClock(spec, parse)
    ensures NoneIsMissed(spec, parse, start, Turns(spec, parse, start, turns))
       <==> (forall i | 0 <= i < |turns| :: !Oversleeps(spec, parse, start, turns, i))
  {
    var p := Turns(spec, parse, start, turns);
    TurnsAreBooked(spec, parse, start, turns);
    NapsAreTurns(spec, parse, start, turns);
    if n :| n in p.naps && n.woke >= n.due {
      assert !Called(p.calls, n.due) && !Overtaken(p.calls, n.due);
    }
  }

  /** `_job_loop`, for as many turns as given. */
  method Run(spec: Spec, parse: string -> Option<int>, start: int, turns: seq<Turn>)
      returns (now: int, calls: seq<Call>, naps: seq<Nap>)
    requires IsClock(spec, parse)
    ensures Progress(now, calls, naps) == Turns(spec, parse, start, turns)
    ensures start <= now && InOrder(calls)
    ensures forall c | c in calls :: start < c.due && c.end <= now && Matches(spec, parse, c.due)
    ensures Covered(spec, parse, calls, naps, start, now)
  {
    now, calls, naps := start, [], [];
    for i := 0 to |turns|
      invariant Progress(now, calls, naps) == Turns(spec, parse, start, turns[..i])
    {
      assert turns[..i + 1][..i] == turns[..i];
      var due := Due(spec, parse, now);
      now := now + turns[i].looking;
      var wait := due - now;
      if wait > TICK {
        now := now + TICK + turns[i].overshoot;
        naps := naps + [Nap(due, now)];
        continue;
      }
      if wait > 0 {
        now := now + wait + turns[i].overshoot;
      }
      calls := calls + [Call(due, now, now + turns[i].running)];
      now := now + turns[i].running;
    }
    assert turns[..|turns|] == turns;
    TurnsAreBooked(spec, parse, start, turns);
  }

  /** Turn `i` made the call. */
  ghost predicate MadeBy(spec: Spec, parse: string -> Option<int>, start: int, turns: seq<Turn>, c: Call, i: nat)
    requires IsClock(spec, parse) && i < |turns|
  {
    Turns(spec, parse, start, turns[..i + 1]).calls == Turns(spec, parse, start, turns[..i]).calls + [c]
  }

  /** How late a call is: by what its own turn's sleep overshot, or, if the instant passed while the turn
      was still looking, by less than that took. */
  lemma {:induction false} LateByItsOwnTurn(spec: Spec, parse: string -> Option<int>, start: int, turns: seq<Turn>,
                                            c: Call)
      returns (i: nat)
    requires IsClock(spec, parse) && c in Turns(spec, parse, start, turns).calls
    ensures i < |turns| && MadeBy(spec, parse, start, turns, c, i)
    ensures c.at == c.due + turns[i].overshoot || c.due <= c.at < c.due + turns[i].looking
    ensures c.end == c.at + turns[i].running
  {
    i := |turns| - 1;
    var front := turns[..i];
    assert turns[..i + 1] == turns;
    if c in Turns(spec, parse, start, front).calls {
      i := LateByItsOwnTurn(spec, parse, start, front, c);
      assert front[..i] == turns[..i] && front[..i + 1] == turns[..i + 1];
    }
  }

  /** Each instant is called at most once: the calls are for strictly later and later instants. */
  lemma CalledOnce(spec: Spec, parse: string -> Option<int>, start: int, turns: seq<Turn>, i: nat, j: nat)
    requires IsClock(spec, parse)
    requires var calls := Turns(spec, parse, start, turns).calls;
             i < |calls| && j < |calls| && calls[i].due == calls[j].due
    ensures i == j
  {
    TurnsAreBooked(spec, parse, start, turns);
    var calls := Turns(spec, parse, start, turns).calls;
    assert calls[i] in calls && calls[j] in calls;
  }

  const AT_NINE := Spec(true, Daily, "09:00", "monday", 6)

  /** It happens: a daily job due at 09:00, looked at a minute and a millisecond before. The slice
      lasts two milliseconds longer than asked, 09:00 passes, and however the loop goes on it never
      calls the job for that instant. */
  lemma ARunIsSleptThrough(parse: string -> Option<int>, later: seq<Turn>)
    requires TimeOfDay("09:00", parse) == Ok((9, 0))
    ensures var p := Turns(AT_NINE, parse, 9 * HOUR - TICK - 1000, [Turn(0, 2000, 0)] + later);
            Matches(AT_NINE, parse, 9 * HOUR) && 9 * HOUR < p.now && !Called(p.calls, 9 * HOUR)
  {
    var start, turns := 9 * HOUR - TICK - 1000, [Turn(0, 2000, 0)] + later;
    TheMinuteBeforeNine(parse);
    StaysMissed(parse, later);
  }

  lemma TheMinuteBeforeNine(parse: string -> Option<int>)
    requires TimeOfDay("09:00", parse) == Ok((9, 0))
    ensures Matches(AT_NINE, parse, 9 * HOUR)
    ensures Turns(AT_NINE, parse, 9 * HOUR - TICK - 1000, [Turn(0, 2000, 0)]) ==
            Progress(9 * HOUR + 1000, [], [Nap(9 * HOUR, 9 * HOUR + 1000)])
  {
    var start, turn := 9 * HOUR - TICK - 1000, Turn(0, 2000, 0);
    DayOf(0, 9 * HOUR);
    DayOf(0, start);
    assert NextRun(AT_NINE, start, None, parse) == Ok(Some(9 * HOUR));
    assert [turn][..0] == [];
    assert Turns(AT_NINE, parse, start, []) == Progress(start, [], []);
  }

  lemma {:induction false} StaysMissed(parse: string -> Option<int>, later: seq<Turn>)
    requires TimeOfDay("09:00", parse) == Ok((9, 0))
    ensures var p := Turns(AT_NINE, parse, 9 * HOUR - TICK - 1000, [Turn(0, 2000, 0)] + later);
            9 * HOUR < p.now && !Called(p.calls, 9 * HOUR)
  {
    var first := [Turn(0, 2000, 0)];
    TheMinuteBeforeNine(parse);
    if later == [] {
      assert first + later == first;
    } else {
      var front, t := later[..|later| - 1], later[|later| - 1];
      assert (first + later)[..|first + later| - 1] == first + front;
      StaysMissed(parse, front);
      var p := Turns(AT_NINE, parse, 9 * HOUR - TICK - 1000, first + front);
      NextRunMatches(AT_NINE, p.now, None, parse);
    }
  }
}
