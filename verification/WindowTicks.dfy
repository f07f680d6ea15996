/** The loop that updates machines in windows of their own: its ticks, its accepted runs, and what
    `state.json` then has on record for each machine. */
module WindowTicks {
  import opened Fleet
  import opened Schedule
  import opened UpdateWindow
  import opened WindowHistory
  import UpdateMonitor
  import Updater

  /** A run of one machine's update that the scheduler accepted. */
  datatype Accepted = Accepted(name: string, opening: int, updated: bool)

  function WindowOf(cfg: Config, name: string): Option<Window> {
    var s := Find(cfg.servers, name);
    if s.Some? then s.value.window else None
  }

  predicate DidUpdate(rows: seq<Updater.Row>, name: string) {
    exists r :: r in rows && r.subject == UpdateMonitor.Machine(name) && r.success && !r.skipped
  }

  ghost predicate AllDifferent(names: seq<string>) {
    forall i, j | 0 <= i < j < |names| :: names[i] != names[j]
  }

  /** The openings of any one machine's runs strictly increase. */
  ghost predicate OncePerWindow(runs: seq<Accepted>) {
    forall i, j | 0 <= i < j < |runs| && runs[i].name == runs[j].name :: runs[i].opening < runs[j].opening
  }

  lemma {:induction false} DueAreDistinct(cfg: Config, enrolled: set<Address>, record: map<string, Seen>,
                                          servers: seq<Server>, now: int)
    requires UniqueNames(servers)
    ensures AllDifferent(DueOf(cfg, enrolled, record, servers, now))
  {
    if servers != [] {
      var front, last := servers[..|servers| - 1], servers[|servers| - 1];
      DueAreDistinct(cfg, enrolled, record, front, now);
      var names := DueOf(cfg, enrolled, record, front, now);
      forall k | 0 <= k < |names|
        ensures names[k] != last.name
      {
        assert names[k] in names;
        var s :| s in front && s.name == names[k] && IsDue(cfg, enrolled, record, s, now);
        var i :| 0 <= i < |front| && front[i] == s;
        assert servers[i] == s;
      }
      assert DueOf(cfg, enrolled, record, servers, now) ==
             names + (if IsDue(cfg, enrolled, record, last, now) then [last.name] else []);
    }
  }

  predicate OpensOf(cfg: Config, name: string, o: int) {
    && WindowOf(cfg, name).Some? && IsWindow(WindowOf(cfg, name).value)
    && OpensAt(WindowOf(cfg, name).value, o)
  }

  /** What was tried are past openings of the machine's window, and no accepted run is later. */
  ghost predicate Booked(cfg: Config, record: map<string, Seen>, looked: int, runs: seq<Accepted>) {
    && (forall n | n in record && record[n].tried.Some? ::
          record[n].tried.value <= looked && OpensOf(cfg, n, record[n].tried.value))
    && (forall r | r in runs ::
          OpensOf(cfg, r.name, r.opening) && SeenOf(record, r.name).tried.Some? &&
            r.opening <= SeenOf(record, r.name).tried.value)
    && OncePerWindow(runs)
  }

  lemma MarkKeepsBooks(cfg: Config, record: map<string, Seen>, now: int, runs: seq<Accepted>, run: Accepted)
    requires Booked(cfg, record, now, runs) && OpenNow(cfg, run.name, now)
    requires OpenedFor(cfg, run.name, now) == Some(run.opening) && SeenOf(record, run.name).tried != Some(run.opening)
    ensures var marked := record[run.name := SeenOf(record, run.name).(tried := Some(run.opening))];
            Booked(cfg, marked, now, runs + [run])
  {
    var w := WindowOf(cfg, run.name).value;
    var tried := SeenOf(record, run.name).tried;
    OpeningIsTheOpenWindow(w, now, run.opening);
    if tried.Some? {
      TheOpenOneIsLater(w, now, tried.value);
    }
    var more := runs + [run];
    forall i, j | 0 <= i < j < |more| && more[i].name == more[j].name
      ensures more[i].opening < more[j].opening
    {
      assert more[i] in runs;
    }
  }

  function OpenedFor(cfg: Config, name: string, now: int): Option<int> {
    if WindowOf(cfg, name).Some? then Opening(WindowOf(cfg, name).value, now) else None
  }

  predicate OpenNow(cfg: Config, name: string, now: int) {
    && WindowOf(cfg, name).Some? && IsWindow(WindowOf(cfg, name).value)
    && Opening(WindowOf(cfg, name).value, now).Some?
  }

  // -- one machine among the loop's ------------------------------------------

  /** What the loop met at one tick. `dated`: the runs that updated their machine, and when. */
  datatype Look = Look(now: int, enrolled: set<Address>, accepts: string -> bool, dated: map<string, int>)

  /** The loop's to update: it has a window, and no hypervisor starts it. */
  predicate Windowed(cfg: Config, s: Server) {
    s in cfg.servers && s.window.Some? && IsWindow(s.window.value) && s.name !in ManagedNames(cfg.servers)
  }

  function StartOf(s: Server): int {
    if s.window.Some? then s.window.value.start * MINUTE else 0
  }

  function OpeningDay(w: Window, now: int): Option<int> {
    if Opening(w, now).Some? then Some(Opening(w, now).value / DAY) else None
  }

  /** The look as the machine meets it. */
  function TickOf(cfg: Config, s: Server, l: Look): Tick {
    Tick(l.now, if s.window.Some? then OpeningDay(s.window.value, l.now) else None,
         UpdateMonitor.Member(cfg, l.enrolled, s) && l.accepts(s.name),
         if s.name in l.dated then Some(l.dated[s.name]) else None)
  }

  function TicksOf(cfg: Config, s: Server, looks: seq<Look>): (ticks: seq<Tick>)
    ensures |ticks| == |looks|
    ensures forall i | 0 <= i < |looks| :: ticks[i] == TickOf(cfg, s, looks[i])
  {
    seq(|looks|, i requires 0 <= i < |looks| => TickOf(cfg, s, looks[i]))
  }

  lemma TicksSnoc(cfg: Config, s: Server, looks: seq<Look>, l: Look)
    ensures TicksOf(cfg, s, looks + [l]) == TicksOf(cfg, s, looks) + [TickOf(cfg, s, l)]
  {
  }

  function Days(start: int, day: Option<int>): Option<int> {
    if day.Some? then Some(day.value * DAY + start) else None
  }

  /** The entry as `state.json` has it. */
  function Stored(start: int, e: Entry): Seen {
    Seen(Days(start, e.tried), e.updated)
  }

  lemma OpeningOfDay(w: Window, now: int)
    requires IsWindow(w)
    ensures Opening(w, now) == Days(w.start * MINUTE, OpeningDay(w, now))
  {
    if Opening(w, now).Some? {
      OpeningIsTheOpenWindow(w, now, Opening(w, now).value);
    }
  }

  lemma SameDay(start: int, a: Option<int>, b: Option<int>)
    ensures Days(start, a) == Days(start, b) <==> a == b
  {
  }

  /** A machine of the loop is run at a look exactly when the loop finds it due and its run is accepted. */
  lemma DueIsRun(cfg: Config, s: Server, record: map<string, Seen>, l: Look, e: Entry)
    requires Windowed(cfg, s) && SeenOf(record, s.name) == Stored(StartOf(s), e)
    ensures Runs(EveryDays(s), e, TickOf(cfg, s, l)) <==>
              IsDue(cfg, l.enrolled, record, s, l.now) && l.accepts(s.name)
  {
    if UpdateMonitor.Member(cfg, l.enrolled, s) {
      DueIsDueBy(cfg, l.enrolled, record, s, l.now);
      OpeningOfDay(s.window.value, l.now);
      SameDay(StartOf(s), e.tried, OpeningDay(s.window.value, l.now));
    }
  }

  /** The accepted runs of one machine. */
  function OfMachine(runs: seq<Accepted>, name: string): seq<Accepted> {
    if runs == [] then []
    else
      var last := runs[|runs| - 1];
      OfMachine(runs[..|runs| - 1], name) + if last.name == name then [last] else []
  }

  function Ranked(runs: seq<Accepted>): (h: seq<Ran>)
    ensures |h| == |runs|
    ensures forall i | 0 <= i < |runs| :: h[i] == Ran(runs[i].opening / DAY, runs[i].updated)
  {
    seq(|runs|, i requires 0 <= i < |runs| => Ran(runs[i].opening / DAY, runs[i].updated))
  }

  lemma {:induction false} OfMachineSum(a: seq<Accepted>, b: seq<Accepted>, name: string)
    ensures OfMachine(a + b, name) == OfMachine(a, name) + OfMachine(b, name)
  {
    if b == [] {
      assert a + b == a;
    } else {
      assert (a + b)[..|a + b| - 1] == a + b[..|b| - 1];
      OfMachineSum(a, b[..|b| - 1], name);
    }
  }

  lemma {:induction false} OfMachineAre(runs: seq<Accepted>, name: string)
    ensures forall r | r in OfMachine(runs, name) :: r in runs && r.name == name
  {
    if runs != [] {
      OfMachineAre(runs[..|runs| - 1], name);
      assert runs == runs[..|runs| - 1] + [runs[|runs| - 1]];
    }
  }

  /** Record and runs of the machine are what its ticks make of an empty record. */
  ghost predicate Follows(cfg: Config, record: map<string, Seen>, runs: seq<Accepted>, past: seq<Look>, s: Server) {
    && SeenOf(record, s.name) == Stored(StartOf(s), EntryAfter(EveryDays(s), BLANK, TicksOf(cfg, s, past)))
    && Ranked(OfMachine(runs, s.name)) == RunsIn(EveryDays(s), BLANK, TicksOf(cfg, s, past))
  }

  ghost predicate Traced(cfg: Config, record: map<string, Seen>, runs: seq<Accepted>, past: seq<Look>,
                         hosts: set<string>) {
    forall s | Windowed(cfg, s) && s.name !in hosts :: Follows(cfg, record, runs, past, s)
  }

  /** Looks are in order, and nothing is dated before the second of the look that began its run. */
  ghost predicate Sensible(past: seq<Look>, looked: int) {
    && (forall i, j | 0 <= i < j < |past| :: past[i].now <= past[j].now)
    && (forall l | l in past :: l.now <= looked && forall n | n in l.dated :: l.now - l.now % SECOND <= l.dated[n])
  }

  // -- one tick --------------------------------------------------------------

  /** The accepted runs among the names, each in the window open at the look. */
  function RunsOf(cfg: Config, names: seq<string>, l: Look): seq<Accepted> {
    if names == [] then []
    else
      var name := names[|names| - 1];
      RunsOf(cfg, names[..|names| - 1], l) +
      (if OpenNow(cfg, name, l.now) && l.accepts(name) then [RunOf(cfg, name, l)] else [])
  }

  function RunOf(cfg: Config, name: string, l: Look): Accepted
    requires OpenNow(cfg, name, l.now)
  {
    Accepted(name, Opening(WindowOf(cfg, name).value, l.now).value, name in l.dated)
  }

  /** The window tried is marked; the date changes only with an update. */
  function Dated(opening: Option<int>, at: Option<int>, seen: Seen): Seen {
    Seen(opening, if at.Some? then at else seen.updated)
  }

  function DatedAt(l: Look, name: string): Option<int> {
    if name in l.dated then Some(l.dated[name]) else None
  }

  /** The record of one machine after the look, `due` or not. */
  function Noted(cfg: Config, name: string, seen: Seen, l: Look, due: bool): Seen {
    if due && l.accepts(name) then Dated(OpenedFor(cfg, name, l.now), DatedAt(l, name), seen) else seen
  }

  /** The first `i` of the due machines had their turn: what was tried. */
  ghost predicate TriedUpTo(cfg: Config, names: seq<string>, i: nat, was: map<string, Seen>, l: Look,
                            record: map<string, Seen>)
    requires i <= |names|
  {
    forall n :: SeenOf(record, n).tried ==
      if n in names[..i] && l.accepts(n) then OpenedFor(cfg, n, l.now) else SeenOf(was, n).tried
  }

  ghost predicate NotedUpTo(cfg: Config, names: seq<string>, i: nat, was: map<string, Seen>, l: Look,
                            record: map<string, Seen>)
    requires i <= |names|
  {
    forall n | n !in ManagedNames(cfg.servers) ::
      SeenOf(record, n) == Noted(cfg, n, SeenOf(was, n), l, n in names[..i])
  }

  ghost predicate DatedUpTo(names: seq<string>, i: nat, l: Look)
    requires i <= |names|
  {
    forall n | n in l.dated :: n in names[..i] && l.now - l.now % SECOND <= l.dated[n]
  }

  function DatedMore(l: Look, name: string, at: Option<int>): Look {
    if at.Some? then l.(dated := l.dated[name := at.value]) else l
  }

  lemma TriedMore(cfg: Config, names: seq<string>, i: nat, was: map<string, Seen>, l: Look, at: Option<int>,
                  before: map<string, Seen>, after: map<string, Seen>)
    requires i < |names| && AllDifferent(names) && TriedUpTo(cfg, names, i, was, l, before)
    requires forall n | n != names[i] :: SeenOf(after, n).tried == SeenOf(before, n).tried
    requires SeenOf(after, names[i]).tried ==
             if l.accepts(names[i]) then OpenedFor(cfg, names[i], l.now) else SeenOf(before, names[i]).tried
    ensures TriedUpTo(cfg, names, i + 1, was, DatedMore(l, names[i], at), after)
  {
    NextName(names, i);
  }

  lemma NotedMore(cfg: Config, names: seq<string>, i: nat, was: map<string, Seen>, l: Look, at: Option<int>,
                  before: map<string, Seen>, after: map<string, Seen>)
    requires i < |names| && AllDifferent(names) && NotedUpTo(cfg, names, i, was, l, before) && DatedUpTo(names, i, l)
    requires names[i] !in ManagedNames(cfg.servers)
    requires forall n | n != names[i] && n !in ManagedNames(cfg.servers) :: SeenOf(after, n) == SeenOf(before, n)
    requires SeenOf(after, names[i]) ==
             if l.accepts(names[i]) then Dated(OpenedFor(cfg, names[i], l.now), at, SeenOf(before, names[i]))
             else SeenOf(before, names[i])
    ensures NotedUpTo(cfg, names, i + 1, was, DatedMore(l, names[i], at), after)
  {
    NextName(names, i);
    var more := DatedMore(l, names[i], at);
    forall n | n !in ManagedNames(cfg.servers)
      ensures SeenOf(after, n) == Noted(cfg, n, SeenOf(was, n), more, n in names[..i + 1])
    {
      assert SeenOf(before, n) == Noted(cfg, n, SeenOf(was, n), l, n in names[..i]);
      assert n != names[i] ==> DatedAt(more, n) == DatedAt(l, n);
    }
  }

  lemma RunsMore(cfg: Config, names: seq<string>, i: nat, l: Look, at: Option<int>, before: seq<Accepted>)
    requires i < |names| && AllDifferent(names) && DatedUpTo(names, i, l) && OpenNow(cfg, names[i], l.now)
    requires at.Some? ==> l.accepts(names[i])
    ensures before + RunsOf(cfg, names[..i + 1], DatedMore(l, names[i], at)) ==
            before + RunsOf(cfg, names[..i], l) +
              if l.accepts(names[i]) then [Accepted(names[i], OpenedFor(cfg, names[i], l.now).value, at.Some?)] else []
  {
    NextName(names, i);
    var more := DatedMore(l, names[i], at);
    DatedElsewhere(cfg, names[..i], l, more.dated);
    RunsSnoc(cfg, names[..i], names[i], more);
  }

  lemma NextName(names: seq<string>, i: nat)
    requires i < |names| && AllDifferent(names)
    ensures names[i] in names && names[i] !in names[..i]
    ensures names[..i + 1] == names[..i] + [names[i]]
    ensures forall n :: n in names[..i + 1] <==> n in names[..i] || n == names[i]
  {
  }

  lemma RunsSnoc(cfg: Config, names: seq<string>, name: string, l: Look)
    requires OpenNow(cfg, name, l.now)
    ensures RunsOf(cfg, names + [name], l) ==
            RunsOf(cfg, names, l) + (if l.accepts(name) then [RunOf(cfg, name, l)] else [])
  {
    assert (names + [name])[..|names|] == names;
  }

  /** A dating says nothing about the runs of other machines. */
  lemma {:induction false} DatedElsewhere(cfg: Config, names: seq<string>, l: Look, dated: map<string, int>)
    requires forall n | n in names :: n in dated <==> n in l.dated
    ensures RunsOf(cfg, names, l.(dated := dated)) == RunsOf(cfg, names, l)
  {
    if names != [] {
      assert forall n | n in names[..|names| - 1] :: n in names;
      DatedElsewhere(cfg, names[..|names| - 1], l, dated);
    }
  }

  /** A due machine's window is open now, and it was not tried in it. */
  lemma DueIsOpen(cfg: Config, enrolled: set<Address>, record: map<string, Seen>, name: string, now: int)
    requires UniqueNames(cfg.servers) && name in DueOf(cfg, enrolled, record, cfg.servers, now)
    ensures OpenNow(cfg, name, now) && name !in ManagedNames(cfg.servers)
    ensures SeenOf(record, name).tried != Opening(WindowOf(cfg, name).value, now)
  {
    var s :| s in cfg.servers && s.name == name && IsDue(cfg, enrolled, record, s, now);
    FindsTheOne(cfg.servers, s);
  }

  lemma IsDueIff(cfg: Config, enrolled: set<Address>, record: map<string, Seen>, s: Server, now: int)
    requires UniqueNames(cfg.servers) && s in cfg.servers
    ensures s.name in DueOf(cfg, enrolled, record, cfg.servers, now) <==> IsDue(cfg, enrolled, record, s, now)
  {
  }

  lemma {:induction false} RunsOfMachine(cfg: Config, names: seq<string>, l: Look, name: string)
    requires AllDifferent(names)
    ensures OfMachine(RunsOf(cfg, names, l), name) ==
            if name in names && OpenNow(cfg, name, l.now) && l.accepts(name) then [RunOf(cfg, name, l)] else []
  {
    if names != [] {
      var front, last := names[..|names| - 1], names[|names| - 1];
      assert names == front + [last];
      RunsOfMachine(cfg, front, l, name);
      var more := if OpenNow(cfg, last, l.now) && l.accepts(last) then [RunOf(cfg, last, l)] else [];
      OfMachineSum(RunsOf(cfg, front, l), more, name);
      OneOfMachine(cfg, last, l, name);
      assert last !in front;
    }
  }

  lemma OneOfMachine(cfg: Config, last: string, l: Look, name: string)
    ensures OpenNow(cfg, last, l.now) ==>
              OfMachine([RunOf(cfg, last, l)], name) == if last == name then [RunOf(cfg, last, l)] else []
    ensures OfMachine([], name) == []
  {
    if OpenNow(cfg, last, l.now) {
      assert [RunOf(cfg, last, l)][..0] == [];
    }
  }

  /** A look does to the record of a machine what its tick does to its entry. */
  lemma {:induction false} EntryFollows(cfg: Config, was: map<string, Seen>, s: Server, e: Entry,
                                        record: map<string, Seen>, l: Look)
    requires UniqueNames(cfg.servers) && Windowed(cfg, s) && SeenOf(was, s.name) == Stored(StartOf(s), e)
    requires SeenOf(record, s.name) ==
             Noted(cfg, s.name, SeenOf(was, s.name), l, s.name in DueOf(cfg, l.enrolled, was, cfg.servers, l.now))
    ensures SeenOf(record, s.name) == Stored(StartOf(s), After(EveryDays(s), e, TickOf(cfg, s, l)))
  {
    IsDueIff(cfg, l.enrolled, was, s, l.now);
    DueIsRun(cfg, s, was, l, e);
    FindsTheOne(cfg.servers, s);
    OpeningOfDay(s.window.value, l.now);
  }

  /** And adds to its runs what its tick adds to its history. */
  lemma {:induction false} RunsFollow(cfg: Config, was: map<string, Seen>, s: Server, e: Entry, l: Look)
    requires UniqueNames(cfg.servers) && Windowed(cfg, s) && SeenOf(was, s.name) == Stored(StartOf(s), e)
    requires AllDifferent(DueOf(cfg, l.enrolled, was, cfg.servers, l.now))
    ensures Ranked(OfMachine(RunsOf(cfg, DueOf(cfg, l.enrolled, was, cfg.servers, l.now), l), s.name)) ==
            RanAt(EveryDays(s), e, TickOf(cfg, s, l))
  {
    IsDueIff(cfg, l.enrolled, was, s, l.now);
    DueIsRun(cfg, s, was, l, e);
    FindsTheOne(cfg.servers, s);
    RunsOfMachine(cfg, DueOf(cfg, l.enrolled, was, cfg.servers, l.now), l, s.name);
  }

  lemma RankedSum(a: seq<Accepted>, b: seq<Accepted>)
    ensures Ranked(a + b) == Ranked(a) + Ranked(b)
  {
  }

  lemma {:induction false} TickFollows(cfg: Config, was: map<string, Seen>, runs: seq<Accepted>, past: seq<Look>,
                                       s: Server, record: map<string, Seen>, l: Look)
    requires UniqueNames(cfg.servers) && Windowed(cfg, s) && Follows(cfg, was, runs, past, s)
    requires AllDifferent(DueOf(cfg, l.enrolled, was, cfg.servers, l.now))
    requires SeenOf(record, s.name) ==
             Noted(cfg, s.name, SeenOf(was, s.name), l, s.name in DueOf(cfg, l.enrolled, was, cfg.servers, l.now))
    ensures Follows(cfg, record, runs + RunsOf(cfg, DueOf(cfg, l.enrolled, was, cfg.servers, l.now), l), past + [l], s)
  {
    var ticks, more := TicksOf(cfg, s, past), RunsOf(cfg, DueOf(cfg, l.enrolled, was, cfg.servers, l.now), l);
    var e := EntryAfter(EveryDays(s), BLANK, ticks);
    TicksSnoc(cfg, s, past, l);
    OneTickMore(EveryDays(s), BLANK, ticks, TickOf(cfg, s, l));
    EntryFollows(cfg, was, s, e, record, l);
    RunsFollow(cfg, was, s, e, l);
    OfMachineSum(runs, more, s.name);
    RankedSum(OfMachine(runs, s.name), OfMachine(more, s.name));
  }

  lemma TickTraces(cfg: Config, was: map<string, Seen>, runs: seq<Accepted>, past: seq<Look>, hosts: set<string>,
                   record: map<string, Seen>, l: Look)
    requires UniqueNames(cfg.servers) && Traced(cfg, was, runs, past, hosts)
    requires AllDifferent(DueOf(cfg, l.enrolled, was, cfg.servers, l.now))
    requires var names := DueOf(cfg, l.enrolled, was, cfg.servers, l.now);
             NotedUpTo(cfg, names, |names|, was, l, record)
    ensures Traced(cfg, record, runs + RunsOf(cfg, DueOf(cfg, l.enrolled, was, cfg.servers, l.now), l), past + [l],
                   hosts)
  {
    var names := DueOf(cfg, l.enrolled, was, cfg.servers, l.now);
    assert names[..|names|] == names;
    forall s | Windowed(cfg, s) && s.name !in hosts
      ensures Follows(cfg, record, runs + RunsOf(cfg, names, l), past + [l], s)
    {
      TickFollows(cfg, was, runs, past, s, record, l);
    }
  }

  lemma SensibleMore(past: seq<Look>, looked: int, names: seq<string>, l: Look)
    requires Sensible(past, looked) && looked <= l.now && DatedUpTo(names, |names|, l)
    ensures Sensible(past + [l], l.now)
  {
  }

  lemma UpdateSnoc(rows: seq<Updater.Row>, r: Updater.Row)
    ensures forall n :: DidUpdate(rows + [r], n) <==>
              DidUpdate(rows, n) || (r.subject == UpdateMonitor.Machine(n) && r.success && !r.skipped)
  {
    forall n
      ensures DidUpdate(rows + [r], n) <==>
              DidUpdate(rows, n) || (r.subject == UpdateMonitor.Machine(n) && r.success && !r.skipped)
    {
      assert r in rows + [r];
      assert forall q | q in rows :: q in rows + [r];
    }
  }

  // -- whom the runs update --------------------------------------------------

  /** The run of one machine updates no other machine of the loop. */
  lemma OthersNotUpdated(cfg: Config, rows: seq<Updater.Row>, name: string, guests: seq<string>, n: string)
    requires Updater.RowsAreOf(cfg, rows, name, guests) && n != name && n !in ManagedNames(cfg.servers)
    requires name in ServerMap(cfg.servers) && guests <= GuestNames(ServerMap(cfg.servers)[name].guests)
    ensures !DidUpdate(rows, n)
  {
    BegunAreManaged(cfg, ServerMap(cfg.servers)[name], guests);
    assert DidUpdate(rows, n) ==> Updater.HasRow(rows, n);
  }

  lemma BegunAreManaged(cfg: Config, s: Server, guests: seq<string>)
    requires s in cfg.servers && guests <= GuestNames(s.guests)
    ensures forall n | n in guests :: n in ManagedNames(cfg.servers)
  {
    var i :| 0 <= i < |cfg.servers| && cfg.servers[i] == s;
    forall j | 0 <= j < |guests|
      ensures guests[j] in ManagedNames(cfg.servers)
    {
      assert cfg.servers[i].guests[j].name == guests[j];
    }
  }

  lemma {:induction false} ReachIsBegun(cfg: Config, own: Option<string>, i: nat, n: string) returns (k: nat)
    requires i <= |cfg.servers| && n in Updater.Reach(cfg, own, i)
    ensures k < i && Updater.Begins(cfg, cfg.servers[k], own)
    ensures n == cfg.servers[k].name || n in Updater.GuestSet(cfg.servers[k])
  {
    k := i - 1;
    if n in Updater.Reach(cfg, own, i - 1) {
      k := ReachIsBegun(cfg, own, i - 1, n);
    }
  }

  /** The run of the fleet updates no machine of the loop, unless timar itself runs there. */
  lemma FleetDoesNotUpdate(cfg: Config, w: UpdateMonitor.Watch, rows: seq<Updater.Row>, own: Option<string>, s: Server)
    requires UniqueNames(cfg.servers) && Windowed(cfg, s) && own != Some(s.name)
    requires Updater.AllBacked(cfg, w, rows) && UpdateMonitor.InStep(w)
    requires w.visited <= Updater.Reach(cfg, own, |cfg.servers|) + Updater.OwnName(own)
    ensures !DidUpdate(rows, s.name)
  {
    if DidUpdate(rows, s.name) {
      var r :| r in rows && r.subject == UpdateMonitor.Machine(s.name) && r.success && !r.skipped;
      assert r in Updater.BackedRows(cfg, w);
      assert s.name in w.visited;
      var k := ReachIsBegun(cfg, own, |cfg.servers|, s.name);
      if s.name in Updater.GuestSet(cfg.servers[k]) {
        Updater.GuestIsManaged(cfg, k, s.name);
      }
    }
  }

  // -- in instants instead of days -------------------------------------------

  lemma OnTheSecond(now: int, takes: nat)
    ensures now - now % SECOND <= now + takes - (now + takes) % SECOND
  {
  }

  lemma WholeSeconds(o: int, now: int)
    requires o % SECOND == 0 && o <= now
    ensures o <= now - now % SECOND
  {
  }

  lemma OpensOnTheSecond(w: Window, o: int)
    requires OpensAt(w, o)
    ensures o == o / DAY * DAY + w.start * MINUTE && o % SECOND == 0
  {
    assert o == (o / DAY * 86400 + w.start * 60) * SECOND;
  }

  lemma LookInTime(cfg: Config, s: Server, l: Look)
    requires Windowed(cfg, s) && Length(s.window.value) <= SLACK
    requires s.name in l.dated ==> l.now - l.now % SECOND <= l.dated[s.name]
    ensures IsOpen(StartOf(s), TickOf(cfg, s, l))
  {
    var w := s.window.value;
    if Opening(w, l.now).Some? {
      var o := Opening(w, l.now).value;
      OpeningIsTheOpenWindow(w, l.now, o);
      OpensOnTheSecond(w, o);
      WholeSeconds(o, l.now);
    }
  }

  lemma LooksInTime(cfg: Config, s: Server, past: seq<Look>, looked: int)
    requires Windowed(cfg, s) && Length(s.window.value) <= SLACK && Sensible(past, looked)
    ensures InTime(StartOf(s), TicksOf(cfg, s, past))
  {
    var ticks := TicksOf(cfg, s, past);
    forall t | t in ticks
      ensures IsOpen(StartOf(s), t)
    {
      var i :| 0 <= i < |ticks| && ticks[i] == t;
      assert past[i] in past;
      LookInTime(cfg, s, past[i]);
    }
  }

  /** Every update of the machine was over within twelve hours of the opening of its window. */
  ghost predicate PromptFor(s: Server, past: seq<Look>)
    requires s.window.Some?
  {
    forall l | l in past && s.name in l.dated && Opening(s.window.value, l.now).Some? ::
      l.dated[s.name] <= Opening(s.window.value, l.now).value + SLACK
  }

  lemma LooksPrompt(cfg: Config, s: Server, past: seq<Look>)
    requires Windowed(cfg, s) && PromptFor(s, past)
    ensures Prompt(StartOf(s), TicksOf(cfg, s, past))
  {
    var ticks := TicksOf(cfg, s, past);
    forall t | t in ticks
      ensures IsPrompt(StartOf(s), t)
    {
      var i :| 0 <= i < |ticks| && ticks[i] == t;
      assert past[i] in past;
      OpeningOfDay(s.window.value, past[i].now);
    }
  }

  /** At some tick in the window that opens at `p` the job ran on the machine, and would have accepted it. */
  ghost predicate OfferedTo(cfg: Config, s: Server, past: seq<Look>, p: int)
    requires s.window.Some?
  {
    exists l :: l in past && UpdateMonitor.Member(cfg, l.enrolled, s) && l.accepts(s.name) &&
      Opening(s.window.value, l.now) == Some(p)
  }

  lemma OfferedOnItsDay(cfg: Config, s: Server, past: seq<Look>, p: int)
    requires Windowed(cfg, s) && OfferedTo(cfg, s, past, p)
    ensures p == p / DAY * DAY + StartOf(s) && Offered(TicksOf(cfg, s, past), p / DAY)
  {
    var l :| l in past && UpdateMonitor.Member(cfg, l.enrolled, s) && l.accepts(s.name) &&
      Opening(s.window.value, l.now) == Some(p);
    OpeningOfDay(s.window.value, l.now);
    var i :| 0 <= i < |past| && past[i] == l;
    assert TicksOf(cfg, s, past)[i] in TicksOf(cfg, s, past);
  }

  ghost predicate RunInWindow(mine: seq<Accepted>, p: int) {
    exists k :: 0 <= k < |mine| && mine[k].opening == p
  }

  /** No run that updated the machine is in a window that opens less than `n` days before. */
  ghost predicate NotUpdatedLately(mine: seq<Accepted>, n: int, p: int) {
    forall k | 0 <= k < |mine| && mine[k].updated && mine[k].opening < p :: mine[k].opening + n * DAY <= p
  }

  ghost predicate OnTheirDays(mine: seq<Accepted>, start: int) {
    forall k | 0 <= k < |mine| :: mine[k].opening == mine[k].opening / DAY * DAY + start
  }

  lemma InDays(mine: seq<Accepted>, start: int, n: int, p: int)
    requires OnTheirDays(mine, start) && p == p / DAY * DAY + start
    ensures RunInWindow(mine, p) <==> RanOn(Ranked(mine), p / DAY)
    ensures NotUpdatedLately(mine, n, p) <==> IsFree(Ranked(mine), n, p / DAY)
  {
    var h, d := Ranked(mine), p / DAY;
    assert forall k | 0 <= k < |mine| :: h[k].day == mine[k].opening / DAY && h[k].updated == mine[k].updated;
    if RunInWindow(mine, p) {
      var k :| 0 <= k < |mine| && mine[k].opening == p;
      assert h[k].day == d;
    }
    if RanOn(h, d) {
      var k :| 0 <= k < |h| && h[k].day == d;
      assert mine[k].opening == p;
    }
    FreeInDays(mine, start, n, p);
  }

  lemma ApartInDays(mine: seq<Accepted>, start: int, n: int, i: nat, j: nat)
    requires OnTheirDays(mine, start) && i < j < |mine|
    requires var a, b := Ranked(mine)[i], Ranked(mine)[j]; a.day < b.day && (a.updated ==> a.day + n <= b.day)
    ensures mine[i].opening < mine[j].opening && (mine[i].updated ==> mine[i].opening + n * DAY <= mine[j].opening)
  {
    assert Ranked(mine)[i] == Ran(mine[i].opening / DAY, mine[i].updated);
    assert Ranked(mine)[j] == Ran(mine[j].opening / DAY, mine[j].updated);
  }

  lemma FreeInDays(mine: seq<Accepted>, start: int, n: int, p: int)
    requires OnTheirDays(mine, start) && p == p / DAY * DAY + start
    ensures NotUpdatedLately(mine, n, p) <==> IsFree(Ranked(mine), n, p / DAY)
  {
    var h, d := Ranked(mine), p / DAY;
    forall k | 0 <= k < |mine|
      ensures h[k].day == mine[k].opening / DAY && h[k].updated == mine[k].updated
      ensures mine[k].opening < p <==> h[k].day < d
      ensures mine[k].opening + n * DAY <= p <==> h[k].day + n <= d
    {
    }
  }

  // -- the runs themselves ---------------------------------------------------

  /** What the run of a machine meets, and how long it takes. */
  datatype Meeting = Meeting(world: UpdateMonitor.World, enrolled: set<Address>, takes: nat)

  /** Behind an accepted run there is a run of that machine, and it is dated by what that run did. */
  ghost predicate IsRunOf(cfg: Config, a: Accepted, r: Updater.RunLog) {
    Updater.IsMachineRun(cfg, a.name, r) && (a.updated <==> !r.raised && DidUpdate(r.rows, a.name))
  }

  ghost predicate AllRan(cfg: Config, runs: seq<Accepted>, made: seq<Updater.RunLog>) {
    |made| == |runs| && forall i | 0 <= i < |runs| :: IsRunOf(cfg, runs[i], made[i])
  }

  /** From run `from` on, each met what it was given to meet. */
  ghost predicate AllMet(runs: seq<Accepted>, made: seq<Updater.RunLog>, from: nat, meets: string -> Meeting) {
    && |made| == |runs|
    && forall i | from <= i < |runs| :: made[i].world == meets(runs[i].name).world &&
                                        made[i].enrolled == meets(runs[i].name).enrolled
  }

  /** Is the machine run, once it was offered the run? */
  ghost predicate RunMade(was: seq<Updater.RunLog>, made: seq<Updater.RunLog>, accepted: bool, meeting: Meeting,
                          raised: bool, rows: seq<Updater.Row>) {
    if accepted then
      && |made| == |was| + 1 && made[..|was|] == was
      && made[|was|] == Updater.RunLog(meeting.world, meeting.enrolled, made[|was|].log, raised, rows)
    else made == was
  }

  lemma RanMore(cfg: Config, runs: seq<Accepted>, made: seq<Updater.RunLog>, a: Accepted, r: Updater.RunLog)
    requires AllRan(cfg, runs, made) && IsRunOf(cfg, a, r)
    ensures AllRan(cfg, runs + [a], made + [r])
  {
  }

  /** One machine's turn, in the record: if its run was accepted, its window is marked, and it is dated, `at`,
      if the run did update it; no other machine of the loop is touched. */
  ghost predicate TurnNoted(cfg: Config, was: map<string, Seen>, record: map<string, Seen>, name: string, now: int,
                            accepted: bool, at: Option<int>) {
    && SeenOf(record, name) ==
       (if accepted then Dated(OpenedFor(cfg, name, now), at, SeenOf(was, name)) else SeenOf(was, name))
    && (forall n | n != name :: SeenOf(record, n).tried == SeenOf(was, n).tried)
    && (forall n | n != name && n !in ManagedNames(cfg.servers) :: SeenOf(record, n) == SeenOf(was, n))
  }

  /** What `record` does with the rows of a run that ended at `end`. */
  ghost predicate UpdatesNoted(cfg: Config, was: map<string, Seen>, record: map<string, Seen>, rows: seq<Updater.Row>,
                               end: int) {
    forall n :: SeenOf(record, n) == SeenOf(was, n).(updated :=
      if WindowOf(cfg, n).Some? && DidUpdate(rows, n) then Some(end - end % SECOND) else SeenOf(was, n).updated)
  }

  lemma NotedThenMarked(cfg: Config, was: map<string, Seen>, noted: map<string, Seen>, name: string, now: int,
                        raised: bool, rows: seq<Updater.Row>, end: int, at: Option<int>)
    requires WindowOf(cfg, name).Some?
    requires if raised then noted == was else UpdatesNoted(cfg, was, noted, rows, end)
    requires at == if !raised && DidUpdate(rows, name) then Some(end - end % SECOND) else None
    requires !raised ==> forall n | n != name && n !in ManagedNames(cfg.servers) :: !DidUpdate(rows, n)
    ensures var marked := noted[name := SeenOf(noted, name).(tried := OpenedFor(cfg, name, now))];
            TurnNoted(cfg, was, marked, name, now, true, at)
  {
    var marked := noted[name := SeenOf(noted, name).(tried := OpenedFor(cfg, name, now))];
    forall n | n != name
      ensures SeenOf(marked, n) == SeenOf(noted, n)
    {
    }
  }

  /** The turn of the `i`th due machine, in everything a tick keeps. */
  lemma TurnMore(cfg: Config, names: seq<string>, i: nat, was: map<string, Seen>, before: map<string, Seen>,
                 after: map<string, Seen>, l: Look, at: Option<int>)
    requires i < |names| && AllDifferent(names) && names[i] !in ManagedNames(cfg.servers)
    requires TriedUpTo(cfg, names, i, was, l, before) && NotedUpTo(cfg, names, i, was, l, before)
    requires DatedUpTo(names, i, l) && (at.Some? ==> l.now - l.now % SECOND <= at.value)
    requires TurnNoted(cfg, before, after, names[i], l.now, l.accepts(names[i]), at)
    ensures var more := DatedMore(l, names[i], at);
            TriedUpTo(cfg, names, i + 1, was, more, after) && NotedUpTo(cfg, names, i + 1, was, more, after) &&
            DatedUpTo(names, i + 1, more)
  {
    TriedMore(cfg, names, i, was, l, at, before, after);
    NotedMore(cfg, names, i, was, l, at, before, after);
    NextName(names, i);
  }

  lemma MetMore(runs: seq<Accepted>, more: seq<Accepted>, was: seq<Updater.RunLog>, made: seq<Updater.RunLog>,
                from: nat, meets: string -> Meeting, name: string, accepted: bool, raised: bool, rows: seq<Updater.Row>)
    requires AllMet(runs, was, from, meets) && RunMade(was, made, accepted, meets(name), raised, rows)
    requires if accepted then |more| == 1 && more[0].name == name else more == []
    ensures AllMet(runs + more, made, from, meets)
  {
    forall i | from <= i < |runs + more|
      ensures made[i].world == meets((runs + more)[i].name).world
      ensures made[i].enrolled == meets((runs + more)[i].name).enrolled
    {
      if i < |runs| {
        assert made[i] == was[i];
      }
    }
  }

  /** The first `i` of the due machines had their turn: the record, and the runs. */
  ghost predicate TurnsTaken(cfg: Config, names: seq<string>, i: nat, was: map<string, Seen>, wasRuns: seq<Accepted>,
                             l: Look, meets: string -> Meeting, record: map<string, Seen>, runs: seq<Accepted>,
                             made: seq<Updater.RunLog>) {
    && i <= |names| && AllRan(cfg, runs, made) && AllMet(runs, made, |wasRuns|, meets)
    && runs == wasRuns + RunsOf(cfg, names[..i], l)
    && TriedUpTo(cfg, names, i, was, l, record) && NotedUpTo(cfg, names, i, was, l, record) && DatedUpTo(names, i, l)
  }

  /** The record, the runs and what they were after that. */
  ghost function TurnsOf(cfg: Config, names: seq<string>, i: nat, was: map<string, Seen>, wasRuns: seq<Accepted>,
                         l: Look, meets: string -> Meeting)
      : iset<(map<string, Seen>, seq<Accepted>, seq<Updater.RunLog>)> {
    iset p: (map<string, Seen>, seq<Accepted>, seq<Updater.RunLog>) |
      TurnsTaken(cfg, names, i, was, wasRuns, l, meets, p.0, p.1, p.2)
  }

  /** All of them had it. */
  lemma TickDone(cfg: Config, was: map<string, Seen>, wasRuns: seq<Accepted>, past: seq<Look>, looked: int,
                 hosts: set<string>, record: map<string, Seen>, runs: seq<Accepted>, made: seq<Updater.RunLog>, l: Look,
                 meets: string -> Meeting)
    requires UniqueNames(cfg.servers) && Traced(cfg, was, wasRuns, past, hosts) && Sensible(past, looked)
    requires looked <= l.now && AllDifferent(DueOf(cfg, l.enrolled, was, cfg.servers, l.now))
    requires var names := DueOf(cfg, l.enrolled, was, cfg.servers, l.now);
             (record, runs, made) in TurnsOf(cfg, names, |names|, was, wasRuns, l, meets)
    ensures Traced(cfg, record, runs, past + [l], hosts) && Sensible(past + [l], l.now)
    ensures AllRan(cfg, runs, made) && AllMet(runs, made, |wasRuns|, meets)
    ensures runs == wasRuns + RunsOf(cfg, DueOf(cfg, l.enrolled, was, cfg.servers, l.now), l)
    ensures forall n :: SeenOf(record, n).tried ==
              if n in DueOf(cfg, l.enrolled, was, cfg.servers, l.now) && l.accepts(n) then OpenedFor(cfg, n, l.now)
              else SeenOf(was, n).tried
  {
    var names := DueOf(cfg, l.enrolled, was, cfg.servers, l.now);
    assert names[..|names|] == names;
    TickTraces(cfg, was, wasRuns, past, hosts, record, l);
    SensibleMore(past, looked, names, l);
  }

  lemma NotTriedYet(cfg: Config, names: seq<string>, i: nat, was: map<string, Seen>, wasRuns: seq<Accepted>, l: Look,
                    meets: string -> Meeting, record: map<string, Seen>, runs: seq<Accepted>,
                    made: seq<Updater.RunLog>)
    requires (record, runs, made) in TurnsOf(cfg, names, i, was, wasRuns, l, meets)
    requires i < |names| && AllDifferent(names)
    ensures SeenOf(record, names[i]).tried == SeenOf(was, names[i]).tried && AllRan(cfg, runs, made)
  {
    NextName(names, i);
  }

  lemma OneTurnMore(cfg: Config, names: seq<string>, i: nat, was: map<string, Seen>, wasRuns: seq<Accepted>, l: Look,
                    meets: string -> Meeting, before: map<string, Seen>, runs: seq<Accepted>,
                    made: seq<Updater.RunLog>, after: map<string, Seen>, ran: seq<Accepted>,
                    mades: seq<Updater.RunLog>, raised: bool, rows: seq<Updater.Row>, at: Option<int>)
    requires (before, runs, made) in TurnsOf(cfg, names, i, was, wasRuns, l, meets)
    requires i < |names| && AllDifferent(names) && names[i] !in ManagedNames(cfg.servers)
    requires OpenNow(cfg, names[i], l.now)
    requires TurnNoted(cfg, before, after, names[i], l.now, l.accepts(names[i]), at)
    requires var end := l.now + meets(names[i]).takes;
             at.Some? ==> l.accepts(names[i]) && at.value == end - end % SECOND
    requires ran == runs +
             if l.accepts(names[i]) then [Accepted(names[i], OpenedFor(cfg, names[i], l.now).value, at.Some?)] else []
    requires RunMade(made, mades, l.accepts(names[i]), meets(names[i]), raised, rows) && AllRan(cfg, ran, mades)
    ensures (after, ran, mades) in TurnsOf(cfg, names, i + 1, was, wasRuns, DatedMore(l, names[i], at), meets)
  {
    var more :=
      if l.accepts(names[i]) then [Accepted(names[i], OpenedFor(cfg, names[i], l.now).value, at.Some?)] else [];
    OnTheSecond(l.now, meets(names[i]).takes);
    TurnMore(cfg, names, i, was, before, after, l, at);
    RunsMore(cfg, names, i, l, at, wasRuns);
    MetMore(runs, more, made, mades, |wasRuns|, meets, names[i], l.accepts(names[i]), raised, rows);
  }

  // -- the loop --------------------------------------------------------------

  class WindowLoop {
    const cfg: Config
    var record: map<string, Seen>
    ghost var looked: int                // the last tick
    ghost var runs: seq<Accepted>        // every run accepted so far
    ghost var made: seq<Updater.RunLog>  // and the run itself
    ghost var past: seq<Look>
    ghost var hosts: set<string>         // where fleet runs found timar itself

    ghost predicate Books()
      reads this`record, this`looked, this`runs
    {
      Booked(cfg, record, looked, runs)
    }

    ghost predicate Valid()
      reads this
    {
      && Books() && UniqueNames(cfg.servers) && Sensible(past, looked) && Traced(cfg, record, runs, past, hosts)
      && AllRan(cfg, runs, made)
    }

    constructor (cfg: Config, now: int)
      requires UniqueNames(cfg.servers)
      ensures Valid() && this.cfg == cfg && looked == now && runs == [] && record == map[] && past == [] && hosts == {}
    {
      this.cfg := cfg;
      record, looked, runs, made, past, hosts := map[], now, [], [], [], {};
    }

    /** After a run that updated a machine, the next of its runs are in windows at least its days, `n`,
        later; and no two are in one window. */
    lemma UpdatesAreDaysApart(s: Server, n: int, i: nat, j: nat)
      requires Valid() && Windowed(cfg, s) && s.name !in hosts && Length(s.window.value) <= 12 * HOUR && n >= 1
      requires if s.everyDays != 0 then n == s.everyDays else n == 7
      requires i < j < |OfMachine(runs, s.name)|
      ensures var a, b := OfMachine(runs, s.name)[i], OfMachine(runs, s.name)[j];
              a.opening < b.opening && (a.updated ==> a.opening + n * DAY <= b.opening)
    {
      var mine := OfMachine(runs, s.name);
      assert Follows(cfg, record, runs, past, s);
      LooksInTime(cfg, s, past, looked);
      WindowHistory.UpdatesAreDaysApart(StartOf(s), n, BLANK, TicksOf(cfg, s, past), i, j);
      MineOnTheirDays(s);
      ApartInDays(mine, StartOf(s), n, i, j);
    }

    /** A machine is run in exactly those of the windows offered to it that do not open within its days, `n`,
        of one it was updated in: so it is updated again on the day, and a run that did not update it is made
        up for in the next window offered. */
    lemma RunExactlyWhenDue(s: Server, n: int, p: int)
      requires Valid() && Windowed(cfg, s) && s.name !in hosts && Length(s.window.value) <= 12 * HOUR && n >= 1
      requires if s.everyDays != 0 then n == s.everyDays else n == 7
      requires PromptFor(s, past) && OfferedTo(cfg, s, past, p)
      ensures var mine := OfMachine(runs, s.name);
              RunInWindow(mine, p) <==> NotUpdatedLately(mine, n, p)
    {
      var mine, ticks := OfMachine(runs, s.name), TicksOf(cfg, s, past);
      assert Follows(cfg, record, runs, past, s);
      LooksInTime(cfg, s, past, looked);
      LooksPrompt(cfg, s, past);
      OfferedOnItsDay(cfg, s, past, p);
      RunExactlyWhenFree(StartOf(s), n, BLANK, ticks, p / DAY);
      FirstOfferIsTaken(StartOf(s), n, ticks, p / DAY);
      MineOnTheirDays(s);
      InDays(mine, StartOf(s), n, p);
    }

    lemma MineOnTheirDays(s: Server)
      requires Valid() && Windowed(cfg, s)
      ensures OnTheirDays(OfMachine(runs, s.name), StartOf(s))
    {
      var mine := OfMachine(runs, s.name);
      OfMachineAre(runs, s.name);
      FindsTheOne(cfg.servers, s);
      forall k | 0 <= k < |mine|
        ensures mine[k].opening == mine[k].opening / DAY * DAY + StartOf(s)
      {
        assert mine[k] in mine;
        OpensOnTheSecond(s.window.value, mine[k].opening);
      }
    }

    /** `record`: remember the machines with a window that a run did update, to the second. */
    method RecordUpdates(rows: seq<Updater.Row>, at: int)
      requires Books()
      modifies this`record
      ensures Books() && UpdatesNoted(cfg, old(record), record, rows, at)
    {
      for i := 0 to |rows|
        invariant Books() && UpdatesNoted(cfg, old(record), record, rows[..i], at)
      {
        var r := rows[i];
        UpdateSnoc(rows[..i], r);
        assert rows[..i + 1] == rows[..i] + [r];
        if r.subject.Machine? && r.success && !r.skipped && WindowOf(cfg, r.subject.name).Some? {
          Remember(r.subject.name, at);
        }
      }
      assert rows[..|rows|] == rows;
    }

    /** `state.set_update_window(name, updated=...)` */
    method Remember(name: string, at: int)
      requires Books()
      modifies this`record
      ensures Books() && record == old(record)[name := SeenOf(old(record), name).(updated := Some(at - at % SECOND))]
    {
      record := record[name := SeenOf(record, name).(updated := Some(at - at % SECOND))];
    }

    /** `mark_tried`, after the accepted run of a machine found due at `now`: the opening is recorded
        with the run, and it is later than the opening of every run of that machine before. */
    method MarkTried(name: string, now: int, ghost updated: bool, ghost run: Updater.RunLog)
      requires Books() && looked == now && OpenNow(cfg, name, now)
      requires SeenOf(record, name).tried != Opening(WindowOf(cfg, name).value, now)
      modifies this`record, this`runs, this`made
      ensures Books() && made == old(made) + [run]
      ensures runs == old(runs) + [Accepted(name, Opening(WindowOf(cfg, name).value, now).value, updated)]
      ensures record == old(record)[name := SeenOf(old(record), name).(tried := OpenedFor(cfg, name, now))]
    {
      var opening := Opening(WindowOf(cfg, name).value, now).value;
      MarkKeepsBooks(cfg, record, now, runs, Accepted(name, opening, updated));
      record := record[name := SeenOf(record, name).(tried := Some(opening))];
      runs, made := runs + [Accepted(name, opening, updated)], made + [run];
    }

    /** `self.run(jobs.UPDATE, only=name)`: refused, and the machine stays due, or accepted, and
        its opening is marked. It is dated, `at`, if the run did not raise and did update it; no other
        machine of the loop is touched. */
    method RunDue(name: string, now: int, accepted: bool, meeting: Meeting)
        returns (raised: bool, rows: seq<Updater.Row>, ghost at: Option<int>)
      requires AllRan(cfg, runs, made)
      requires Books() && looked == now && OpenNow(cfg, name, now) && name !in ManagedNames(cfg.servers)
      requires SeenOf(record, name).tried != Opening(WindowOf(cfg, name).value, now)
      modifies this`record, this`runs, this`made
      ensures Books() && AllRan(cfg, runs, made)
      ensures RunMade(old(made), made, accepted, meeting, raised, rows)
      ensures runs == old(runs) + if accepted then [Accepted(name, OpenedFor(cfg, name, now).value, at.Some?)] else []
      ensures TurnNoted(cfg, old(record), record, name, now, accepted, at)
      ensures at == if accepted && !raised && DidUpdate(rows, name)
                    then Some(now + meeting.takes - (now + meeting.takes) % SECOND) else None
    {
      raised, rows, at := false, [], None;
      if accepted {
        ghost var run;
        raised, rows, run := RunMachine(name, meeting);
        at := NoteRun(name, now, raised, rows, now + meeting.takes, run);
      }
    }

    /** The end of the run: what it updated is dated, and the window is marked. */
    method NoteRun(name: string, now: int, raised: bool, rows: seq<Updater.Row>, end: int, ghost run: Updater.RunLog)
        returns (ghost at: Option<int>)
      requires AllRan(cfg, runs, made) && Updater.IsMachineRun(cfg, name, run)
      requires run.raised == raised && run.rows == rows
      requires Books() && looked == now && OpenNow(cfg, name, now)
      requires SeenOf(record, name).tried != Opening(WindowOf(cfg, name).value, now)
      requires !raised ==> forall n | n != name && n !in ManagedNames(cfg.servers) :: !DidUpdate(rows, n)
      modifies this`record, this`runs, this`made
      ensures Books() && AllRan(cfg, runs, made) && made == old(made) + [run]
      ensures runs == old(runs) + [Accepted(name, OpenedFor(cfg, name, now).value, at.Some?)]
      ensures TurnNoted(cfg, old(record), record, name, now, true, at)
      ensures at == if !raised && DidUpdate(rows, name) then Some(end - end % SECOND) else None
    {
      if !raised {
        RecordUpdates(rows, end);
      }
      at := if !raised && DidUpdate(rows, name) then Some(end - end % SECOND) else None;
      NotedThenMarked(cfg, old(record), record, name, now, raised, rows, end, at);
      RanMore(cfg, runs, made, Accepted(name, OpenedFor(cfg, name, now).value, at.Some?), run);
      MarkTried(name, now, at.Some?, run);
    }

    /** The worker thread's part: `jobs.run_update` for one machine. */
    method RunMachine(name: string, meeting: Meeting)
        returns (raised: bool, rows: seq<Updater.Row>, ghost made: Updater.RunLog)
      requires WindowOf(cfg, name).Some? && name !in ManagedNames(cfg.servers)
      ensures made == Updater.RunLog(meeting.world, meeting.enrolled, made.log, raised, rows)
      ensures Updater.IsMachineRun(cfg, name, made)
      ensures !raised ==> Updater.HasRow(rows, name)
      ensures !raised ==> forall n | n != name && n !in ManagedNames(cfg.servers) :: !DidUpdate(rows, n)
    {
      var run := new Updater.Run(cfg, meeting.enrolled, meeting.world);
      NotItsOwnGuest(name);
      raised, rows := run.RunOnly(name);
      made := Updater.RunLog(meeting.world, meeting.enrolled, run.log, raised, rows);
      if !raised {
        forall n | n != name && n !in ManagedNames(cfg.servers)
          ensures !DidUpdate(rows, n)
        {
          OthersNotUpdated(cfg, rows, name, run.watch.guests, n);
        }
      }
    }

    lemma NotItsOwnGuest(name: string)
      requires WindowOf(cfg, name).Some? && name !in ManagedNames(cfg.servers)
      ensures name in ServerMap(cfg.servers) && name !in Updater.GuestSet(ServerMap(cfg.servers)[name])
    {
      assert Find(cfg.servers, name).value in cfg.servers;
      Updater.NotItsOwnGuest(cfg, ServerMap(cfg.servers)[name]);
    }

    /** The first `i` of the due machines had their turn. */
    ghost predicate Ticking(names: seq<string>, i: nat, was: map<string, Seen>, wasRuns: seq<Accepted>, l: Look,
                            meets: string -> Meeting)
      reads this`record, this`looked, this`runs, this`made
    {
      Books() && looked == l.now && (record, runs, made) in TurnsOf(cfg, names, i, was, wasRuns, l, meets)
    }

    method NextDue(names: seq<string>, i: nat, ghost was: map<string, Seen>, ghost wasRuns: seq<Accepted>,
                   now: int, accepts: string -> bool, meets: string -> Meeting, ghost l: Look)
        returns (ghost more: Look)
      requires i < |names| && AllDifferent(names) && Ticking(names, i, was, wasRuns, l, meets)
      requires l.now == now && l.accepts == accepts
      requires OpenNow(cfg, names[i], now) && names[i] !in ManagedNames(cfg.servers)
      requires SeenOf(was, names[i]).tried != Opening(WindowOf(cfg, names[i]).value, now)
      modifies this`record, this`runs, this`made
      ensures more == l.(dated := more.dated) && Ticking(names, i + 1, was, wasRuns, more, meets)
    {
      ghost var before, ran, had := record, runs, made;
      NotTriedYet(cfg, names, i, was, wasRuns, l, meets, record, runs, made);
      ghost var at;
      var raised, rows;
      raised, rows, at := RunDue(names[i], now, accepts(names[i]), meets(names[i]));
      more := DatedMore(l, names[i], at);
      OneTurnMore(cfg, names, i, was, wasRuns, l, meets, before, ran, had, record, runs, made, raised, rows, at);
    }

    /** One tick of `_window_loop`. The due machines are tried once each, in config order; those
        whose run is accepted, and no others, are run, with what they meet, and marked as tried in the
        window open now; and the record and the runs of every machine of the loop go on as its history
        says. */
    method Tick(enrolled: set<Address>, now: int, accepts: string -> bool, meets: string -> Meeting)
        returns (ghost look: Look)
      requires Valid() && looked <= now
      modifies this`record, this`looked, this`runs, this`made, this`past
      ensures AllMet(runs, made, |old(runs)|, meets)
      ensures Valid() && looked == now && OncePerWindow(runs)
      ensures look == Look(now, enrolled, accepts, look.dated) && past == old(past) + [look]
      ensures runs == old(runs) + RunsOf(cfg, DueOf(cfg, enrolled, old(record), cfg.servers, now), look)
      ensures forall n :: SeenOf(record, n).tried ==
                if n in DueOf(cfg, enrolled, old(record), cfg.servers, now) && accepts(n) then OpenedFor(cfg, n, now)
                else SeenOf(old(record), n).tried
    {
      looked := now;
      var names := Due(cfg, enrolled, record, now);
      DueAreDistinct(cfg, enrolled, record, cfg.servers, now);
      ghost var was, wasRuns := record, runs;
      look := RunAllDue(names, enrolled, now, accepts, meets);
      TickDone(cfg, was, wasRuns, past, old(looked), hosts, record, runs, made, look, meets);
      past := past + [look];
    }

    /** The loop over the due machines. */
    method RunAllDue(names: seq<string>, enrolled: set<Address>, now: int, accepts: string -> bool,
                     meets: string -> Meeting)
        returns (ghost look: Look)
      requires UniqueNames(cfg.servers) && Books() && looked == now && AllDifferent(names)
      requires names == DueOf(cfg, enrolled, record, cfg.servers, now) && AllRan(cfg, runs, made)
      modifies this`record, this`runs, this`made
      ensures look == Look(now, enrolled, accepts, look.dated)
      ensures Ticking(names, |names|, old(record), old(runs), look, meets)
    {
      look := Look(now, enrolled, accepts, map[]);
      ghost var was := record;
      for i := 0 to |names|
        invariant Ticking(names, i, was, old(runs), look, meets) && look == Look(now, enrolled, accepts, look.dated)
      {
        DueIsOpen(cfg, enrolled, was, names[i], now);
        look := NextDue(names, i, was, old(runs), now, accepts, meets, look);
      }
    }

    /** A run of the whole fleet in between, ended at `end`. It leaves the machines of the loop to it,
        except that it dates timar's own host. */
    method FleetRun(meeting: Meeting, end: int)
        returns (raised: bool, rows: seq<Updater.Row>, ghost own: Option<string>, ghost run: Updater.RunLog)
      requires Valid()
      modifies this`record, this`hosts
      ensures Valid() && hosts == old(hosts) + Updater.OwnName(own)
      ensures run in Updater.FleetRuns(cfg, own)
      ensures run == Updater.RunLog(meeting.world, meeting.enrolled, run.log, raised, rows)
      ensures if raised then record == old(record) else UpdatesNoted(cfg, old(record), record, rows, end)
      ensures forall s | Windowed(cfg, s) && own != Some(s.name) ::
                SeenOf(record, s.name) == SeenOf(old(record), s.name)
    {
      raised, rows, own, run := RunFleet(meeting);
      if !raised {
        RecordUpdates(rows, end);
      }
      hosts := hosts + Updater.OwnName(own);
      forall s | Windowed(cfg, s) && s.name !in hosts
        ensures Follows(cfg, record, runs, past, s)
      {
        assert Follows(cfg, old(record), runs, past, s);
      }
    }

    method RunFleet(meeting: Meeting)
        returns (raised: bool, rows: seq<Updater.Row>, ghost own: Option<string>, ghost made: Updater.RunLog)
      requires UniqueNames(cfg.servers)
      ensures made in Updater.FleetRuns(cfg, own)
      ensures made == Updater.RunLog(meeting.world, meeting.enrolled, made.log, raised, rows)
      ensures !raised ==> forall s | Windowed(cfg, s) && own != Some(s.name) :: !DidUpdate(rows, s.name)
    {
      var run := new Updater.Run(cfg, meeting.enrolled, meeting.world);
      ghost var answer;
      raised, rows, own, answer := run.RunUpdates();
      made := Updater.RunLog(meeting.world, meeting.enrolled, run.log, raised, rows);
      Updater.FleetRunIsOne(cfg, own, made, run.watch);
      UpdateMonitor.ReplayInStep(cfg, meeting.enrolled, run.log);
      forall s | Windowed(cfg, s) && own != Some(s.name)
        ensures !DidUpdate(rows, s.name)
      {
        FleetDoesNotUpdate(cfg, run.watch, rows, own, s);
      }
    }
  }
}
