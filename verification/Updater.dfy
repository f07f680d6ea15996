/** The update run: wake what is asleep, update it, put it back as it was found, and do timar's
    own host last. What the outside world answers (probes, logins, exit codes, exceptions), and when
    stop requests and other threads' logins fall between two actions, is up to an arbitrary `World`;
    the run asks, and goes by the replies. */
module Updater {
  import opened Fleet
  import opened UpdateMonitor

  /** Why a row is not a plain success. `Text` is whatever the machine or the exception said. */
  datatype Detail =
    | NoDetail
    | Text(text: string)
    | NotConfigured
    | WatchedOnly | LeftOut | NotEnrolled
    | OwnWindow
    | HypervisorNotInRun(hypervisor: string)
    | NoCommand
    | OffByHand
    | InUse(user: string)
    | DidNotComeUp
    | NotBackFromRestart
    | IsTimar
    | SkippedByChoice
    | RemovedMeanwhile
    | NeverReportedBack
    | StillRunning
    | ExitCode(code: int, tail: string)

  /** One row of the report: an `UpdateResult`. */
  datatype Row = Row(
    subject: Subject, success: bool, wasRunning: bool, skipped: bool, error: Detail, note: string)

  function Failed(subject: Subject, wasRunning: bool, error: Detail): Row {
    Row(subject, false, wasRunning, false, error, "")
  }

  function Skipped(subject: Subject, wasRunning: bool, error: Detail): Row {
    Row(subject, true, wasRunning, true, error, "")
  }

  function Done(subject: Subject, ok: bool, wasRunning: bool, error: string, note: string): Row {
    Row(subject, ok, wasRunning, false, if ok then NoDetail else Text(error), note)
  }

  /** `"; ".join(filter(None, [a, b]))` */
  function JoinNotes(a: string, b: string): string {
    if a == "" then b else if b == "" then a else a + "; " + b
  }

  function SkipReason(cfg: Config, enrolled: set<Address>, s: Server): (r: Option<Detail>)
    ensures r.None? <==> Member(cfg, enrolled, s)
  {
    if !s.ssh then Some(WatchedOnly)
    else if s.name in Excluded(cfg, Update) then Some(LeftOut)
    else if s.address !in enrolled then Some(NotEnrolled)
    else None
  }

  /** `containers_by_server.get(name, [])` */
  function ProjectsOf(cfg: Config, name: string): (entries: seq<Project>)
    ensures forall e | e in entries :: e in cfg.projects && e.server == name
  {
    Registered(cfg.projects, name)
  }

  // -- how far a run has come ------------------------------------------------

  /** Nothing but a stop request and logins between `w` and `v`. */
  predicate Meanwhile(w: Watch, v: Watch) {
    && v == w.(stopped := v.stopped, enrolled := v.enrolled)
    && (w.stopped ==> v.stopped)
    && w.enrolled <= v.enrolled
  }

  /** Nothing but those and what the run was told. */
  predicate Settled(w: Watch, v: Watch) {
    && v == w.(stopped := v.stopped, enrolled := v.enrolled, answers := v.answers, line := v.line)
    && (w.stopped ==> v.stopped)
    && w.enrolled <= v.enrolled
    && w.answers <= v.answers
  }

  /** An exception ended the step of the machine: no restart is owed it any more. */
  function Cut(w: Watch, n: string): (v: Watch)
    ensures n !in w.restarts ==> v == w
  {
    assert n !in w.restarts ==> w.restarts - {n} == w.restarts;
    w.(restarts := w.restarts - {n})
  }

  predicate CutShort(w: Watch, n: string) {
    FailedOn(Machine(n)) in w.answers && RaisedOn(n) in w.answers
  }

  /** What no action of the run ever undoes. */
  ghost predicate Onward(w: Watch, v: Watch) {
    && (w.stopped ==> v.stopped) && (w.handedOff.Some? ==> v.handedOff == w.handedOff)
    && w.start == v.start && w.enrolled <= v.enrolled
    && w.visited <= v.visited && w.foundUp <= v.foundUp && w.foundDown <= v.foundDown
    && w.deeds <= v.deeds && w.answers <= v.answers
    && w.guests <= v.guests
    && (forall n | Awake(w, n) :: Awake(v, n) || Slept(n) in v.deeds)
  }

  /** The work on one host: no other host begun, nothing handed off. */
  ghost predicate Later(w: Watch, v: Watch) {
    Onward(w, v) && w.handedOff == v.handedOff && w.hosts == v.hosts
  }

  /** Work on a machine that is up: it moves, wakes and begins nothing. */
  ghost predicate AtWork(w: Watch, v: Watch) {
    Later(w, v) && v.phases == w.phases && v.guests == w.guests && v.visited == w.visited && v.taken == w.taken
  }

  /** The machine was found up, or the run brought it up. */
  predicate CameBy(w: Watch, n: string, wasRunning: bool) {
    if wasRunning then n in w.foundUp else Awake(w, n)
  }

  /** Nothing was done about `n`: it is in the phase it was in, and visited only if it had been. */
  ghost predicate SamePhase(w: Watch, v: Watch, n: string) {
    && (n in w.phases <==> n in v.phases) && (n in w.phases ==> w.phases[n] == v.phases[n])
    && (n in w.visited <==> n in v.visited)
  }

  /** Every machine other than `name` is in the phase it was in. */
  ghost predicate OnlyPhaseOf(w: Watch, v: Watch, name: string) {
    forall n | n != name :: SamePhase(w, v, n)
  }

  lemma PhasesTrans(w: Watch, u: Watch, v: Watch, name: string)
    requires OnlyPhaseOf(w, u, name) && OnlyPhaseOf(u, v, name)
    ensures OnlyPhaseOf(w, v, name)
  {
    forall n | n != name
      ensures SamePhase(w, v, n)
    {
      assert SamePhase(w, u, n) && SamePhase(u, v, n);
    }
  }

  /** At most the host `name` is up because of this run, and it was not started on another; no restart
      is owed. */
  ghost predicate OnlyAwake(w: Watch, name: string) {
    && (forall n | n in w.phases :: w.phases[n].Woken? ==> n == name && w.phases[n].on.None?)
    && w.restarts == {}
  }

  // -- what a row says -------------------------------------------------------

  /** The reason a row gives for a skip is one that the configuration, the enrolments or the machine
      itself gave. */
  ghost predicate SkipIsDue(cfg: Config, w: Watch, r: Row) {
    match r.error
    case WatchedOnly => exists s :: s in cfg.servers && r.subject == Machine(s.name) && !s.ssh
    case LeftOut => r.subject.Machine? && Update in cfg.exclude && r.subject.name in cfg.exclude[Update]
    case NotEnrolled => exists s :: s in cfg.servers && r.subject == Machine(s.name) && s.address !in w.start
    case OwnWindow => exists s :: s in cfg.servers && r.subject == Machine(s.name) && s.window.Some?
    case NoCommand =>
      exists s :: s in cfg.servers && r.subject == Machine(s.name) && s.command.None? && s.platform.OpenWrt?
    case OffByHand =>
      && r.subject.Machine? && r.subject.name in w.foundDown
      && exists s :: s in cfg.servers && r.subject == Machine(s.name) && s.onDemand && s.wolMac.None?
    case InUse(user) =>
      && user != "" && r.subject.Machine? && Busy(r.subject.name) in w.answers
      && exists s :: s in cfg.servers && r.subject == Machine(s.name) && s.platform.Windows?
    case HypervisorNotInRun(h) =>
      exists s, g :: s in cfg.servers && s.name == h && !Member(cfg, w.start, s) && g in s.guests &&
        r.subject == Machine(g.name)
    case SkippedByChoice =>
      exists e :: e in cfg.projects && r.subject == ComposeProject(e.name, e.server) && e.mode.Skip?
    case IsTimar => TimarIn(r.subject) in w.answers
    case _ => false
  }

  /** A row the log bears out: a skip is no failure and has its reason, a failure is something that
      failed, "did not come up" was called and did not, "did not come back" was restarted, a success
      is an update that worked, "was running" is a machine that was found up, and "woken, updated, shut
      down again" one the run woke. */
  ghost predicate Backed(cfg: Config, w: Watch, r: Row) {
    && (r.skipped ==> r.success && SkipIsDue(cfg, w, r))
    && (!r.success ==> FailedOn(r.subject) in w.answers || r.error.NotConfigured?)
    && (r.error.NotConfigured? ==> r.subject.Machine? && r.subject.name !in ServerMap(cfg.servers))
    && (r.error.DidNotComeUp? ==> r.subject.Machine? && NoAnswer(r.subject.name) in w.answers)
    && (r.error.NotBackFromRestart? ==> r.subject.Machine? && Rebooted(r.subject.name) in w.deeds)
    && (r.success && !r.skipped ==>
        && Worked(r.subject) in w.deeds
        && (r.subject.Machine? && r.wasRunning ==>
              r.subject.name in w.foundUp || w.handedOff == Some(r.subject.name))
        && (!r.wasRunning ==> r.subject.Machine? && (Awake(w, r.subject.name) || Slept(r.subject.name) in w.deeds)))
  }

  /** The rows the log bears out. */
  ghost function BackedRows(cfg: Config, w: Watch): iset<Row> {
    iset r | Backed(cfg, w, r)
  }

  ghost predicate AllBacked(cfg: Config, w: Watch, rows: seq<Row>) {
    forall r | r in rows :: r in BackedRows(cfg, w)
  }

  lemma SkippedIsBacked(cfg: Config, w: Watch, m: Subject, wasRunning: bool, error: Detail)
    requires SkipIsDue(cfg, w, Skipped(m, wasRunning, error))
    ensures Skipped(m, wasRunning, error) in BackedRows(cfg, w)
  {
  }

  lemma FailedIsBacked(cfg: Config, w: Watch, m: Subject, wasRunning: bool, error: Detail)
    requires FailedOn(m) in w.answers && !error.NotConfigured? && !error.NotBackFromRestart?
    requires error.DidNotComeUp? ==> m.Machine? && NoAnswer(m.name) in w.answers
    ensures Failed(m, wasRunning, error) in BackedRows(cfg, w)
  {
  }

  lemma DoneIsBacked(cfg: Config, w: Watch, m: Subject, ok: bool, wasRunning: bool, error: string, note: string)
    requires if ok then Worked(m) in w.deeds else FailedOn(m) in w.answers
    requires m.Machine? && wasRunning ==> m.name in w.foundUp
    requires wasRunning || (m.Machine? && (Awake(w, m.name) || Slept(m.name) in w.deeds))
    ensures Done(m, ok, wasRunning, error, note) in BackedRows(cfg, w)
  {
  }

  lemma SkipStaysDue(cfg: Config, w: Watch, v: Watch, r: Row)
    requires Onward(w, v) && SkipIsDue(cfg, w, r)
    ensures SkipIsDue(cfg, v, r)
  {
  }

  lemma BackedLater(cfg: Config, w: Watch, v: Watch, rows: seq<Row>)
    requires Onward(w, v) && AllBacked(cfg, w, rows)
    ensures AllBacked(cfg, v, rows)
  {
    forall r | r in rows
      ensures r in BackedRows(cfg, v)
    {
      assert r in BackedRows(cfg, w);
      if r.skipped {
        SkipStaysDue(cfg, w, v, r);
      }
    }
  }

  // -- what the rows are about -----------------------------------------------

  ghost function MachinesIn(rows: seq<Row>): set<string> {
    set r | r in rows && r.subject.Machine? :: r.subject.name
  }

  ghost predicate HasRow(rows: seq<Row>, name: string) {
    name in MachinesIn(rows)
  }

  lemma MachinesOfSum(rows: seq<Row>, more: seq<Row>)
    ensures MachinesIn(rows + more) == MachinesIn(rows) + MachinesIn(more)
  {
  }

  /** From row `j` on, one row for each of `entries`, in order. */
  ghost predicate ProjectsAt(rows: seq<Row>, entries: seq<Project>, host: string, j: nat) {
    && j + |entries| <= |rows|
    && forall i | 0 <= i < |entries| :: rows[j + i].subject == ComposeProject(entries[i].name, host)
  }

  ghost predicate DockerFailed(rows: seq<Row>, host: string) {
    exists r :: r in rows && r.subject == DockerOn(host)
  }

  /** Every compose project registered on `host` has its row, in order, or docker could not be asked. */
  ghost predicate ProjectsListed(cfg: Config, rows: seq<Row>, host: string) {
    DockerFailed(rows, host) || exists j: nat :: ProjectsAt(rows, ProjectsOf(cfg, host), host, j)
  }

  lemma ListedInSum(cfg: Config, rows: seq<Row>, more: seq<Row>, host: string)
    requires ProjectsListed(cfg, rows, host) || ProjectsListed(cfg, more, host)
    ensures ProjectsListed(cfg, rows + more, host)
  {
    var entries := ProjectsOf(cfg, host);
    if j: nat :| ProjectsAt(rows, entries, host, j) {
      assert ProjectsAt(rows + more, entries, host, j);
    } else if j: nat :| ProjectsAt(more, entries, host, j) {
      assert ProjectsAt(rows + more, entries, host, |rows| + j);
    } else {
      var r :| (r in rows || r in more) && r.subject == DockerOn(host);
      assert r in rows + more;
    }
  }

  predicate OutReason(d: Detail) {
    d.WatchedOnly? || d.LeftOut? || d.NotEnrolled?
  }

  /** A row says that the machine is not in the run. */
  ghost predicate OutOfRun(rows: seq<Row>, name: string) {
    exists r :: r in rows && r.subject == Machine(name) && OutReason(r.error)
  }

  lemma OutOfSum(rows: seq<Row>, more: seq<Row>, name: string)
    ensures OutOfRun(rows + more, name) <==> OutOfRun(rows, name) || OutOfRun(more, name)
    ensures OutOfRun(rows, name) ==> HasRow(rows, name)
    ensures OutOfRun(more, name) ==> HasRow(more, name)
  {
    if r :| (r in rows || r in more) && r.subject == Machine(name) && OutReason(r.error) {
      assert r in rows + more;
    }
  }

  lemma OneRow(row: Row)
    requires row.subject.Machine?
    ensures MachinesIn([row]) == {row.subject.name}
    ensures OutOfRun([row], row.subject.name) <==> OutReason(row.error)
  {
    assert row in [row];
  }

  lemma OneMoreRow(rows: seq<Row>, row: Row, name: string)
    requires row.subject.Machine?
    ensures MachinesIn(rows + [row]) == MachinesIn(rows) + {row.subject.name}
    ensures OutOfRun(rows, name) ==> OutOfRun(rows + [row], name)
  {
    OneRow(row);
    MachinesOfSum(rows, [row]);
    OutOfSum(rows, [row], name);
  }

  // -- what a run owes each machine ------------------------------------------

  /** There is nothing to run on it, or the job does not run on it. */
  ghost predicate NotForRun(cfg: Config, w: Watch, s: Server) {
    !Member(cfg, w.start, s) || (s.command.None? && s.platform.OpenWrt?)
  }

  /** There was a reason to leave the host alone. */
  ghost predicate LetBe(cfg: Config, w: Watch, s: Server) {
    || NotForRun(cfg, w, s)
    || (s.platform.Windows? && Busy(s.name) in w.answers)
    || (s.onDemand && s.wolMac.None? && s.name in w.foundDown)
  }

  /** It was given its update command, or the world kept it from that: it did not come up, or a call before
      the command raised. */
  ghost predicate UpdateTried(w: Watch, n: string) {
    Attempted(n) in w.deeds || NoAnswer(n) in w.answers || KeptFrom(n) in w.answers
  }

  /** Its projects have their rows, unless it did not come up, an exception ended its step, or a stop
      was asked for. */
  ghost predicate ProjectsTried(cfg: Config, w: Watch, rows: seq<Row>, n: string) {
    || w.stopped || RaisedOn(n) in w.answers || NoAnswer(n) in w.answers
    || ProjectsListed(cfg, rows, n)
  }

  /** The machine was updated, and then its projects. */
  ghost predicate Tried(cfg: Config, w: Watch, rows: seq<Row>, n: string) {
    UpdateTried(w, n) && ProjectsTried(cfg, w, rows, n)
  }

  predicate WasAsked(w: Watch, n: string, what: Call) {
    WasTold(Question(Machine(n), what)) in w.answers
  }

  /** A Windows machine says who is at it before its update, and whether it wants a restart after it. */
  ghost predicate AskedAround(w: Watch, s: Server) {
    s.platform.Windows? ==>
      || NoAnswer(s.name) in w.answers || KeptFrom(s.name) in w.answers
      || (WasAsked(w, s.name, BusyCheck) && (RaisedOn(s.name) in w.answers || WasAsked(w, s.name, RestartCheck)))
  }

  ghost predicate Handled(cfg: Config, w: Watch, rows: seq<Row>, s: Server) {
    LetBe(cfg, w, s) || (Tried(cfg, w, rows, s.name) && AskedAround(w, s))
  }

  /** A guest that is off is started, whatever switches it on otherwise, and nobody is asked. */
  ghost predicate GuestHandled(cfg: Config, w: Watch, rows: seq<Row>, g: Server) {
    NotForRun(cfg, w, g) || Tried(cfg, w, rows, g.name)
  }

  /** Why the guests of a host may be left alone: the host is not in the run, has no command, was off
      and stayed off, or its own step was cut short by an exception. */
  ghost predicate GuestsExcused(cfg: Config, w: Watch, s: Server) {
    || NotForRun(cfg, w, s)
    || (s.name in w.foundDown && ((s.onDemand && s.wolMac.None?) || NoAnswer(s.name) in w.answers))
    || RaisedOn(s.name) in w.answers
  }

  /** Each configured guest has its row and was handled; timar's own host has its turn later. */
  ghost predicate GuestsHandled(cfg: Config, w: Watch, rows: seq<Row>, guests: seq<Guest>, own: Option<string>) {
    forall g | g in guests && own != Some(g.name) && g.name in ServerMap(cfg.servers) ::
      HasRow(rows, g.name) && GuestHandled(cfg, w, rows, ServerMap(cfg.servers)[g.name])
  }

  ghost predicate HostHandled(cfg: Config, w: Watch, rows: seq<Row>, s: Server, own: Option<string>) {
    Handled(cfg, w, rows, s) && (GuestsExcused(cfg, w, s) || GuestsHandled(cfg, w, rows, s.guests, own))
  }

  lemma TriedLater(cfg: Config, w: Watch, v: Watch, rows: seq<Row>, more: seq<Row>, n: string)
    requires Onward(w, v) && Tried(cfg, w, rows, n)
    ensures Tried(cfg, v, rows + more, n)
  {
    if ProjectsListed(cfg, rows, n) {
      ListedInSum(cfg, rows, more, n);
    }
  }

  lemma TriedInSum(cfg: Config, w: Watch, rows: seq<Row>, more: seq<Row>, n: string)
    requires Tried(cfg, w, more, n)
    ensures Tried(cfg, w, rows + more, n)
  {
    if ProjectsListed(cfg, more, n) {
      ListedInSum(cfg, rows, more, n);
    }
  }

  lemma HandledLater(cfg: Config, w: Watch, v: Watch, rows: seq<Row>, more: seq<Row>, s: Server)
    requires Onward(w, v) && Handled(cfg, w, rows, s)
    ensures Handled(cfg, v, rows + more, s)
  {
    if !LetBe(cfg, w, s) {
      TriedLater(cfg, w, v, rows, more, s.name);
    }
  }

  lemma HandledInSum(cfg: Config, w: Watch, rows: seq<Row>, more: seq<Row>, s: Server)
    requires Handled(cfg, w, more, s)
    ensures Handled(cfg, w, rows + more, s)
  {
    if !LetBe(cfg, w, s) {
      TriedInSum(cfg, w, rows, more, s.name);
    }
  }

  lemma GuestHandledLater(cfg: Config, w: Watch, v: Watch, rows: seq<Row>, more: seq<Row>, g: Server)
    requires Onward(w, v) && GuestHandled(cfg, w, rows, g)
    ensures GuestHandled(cfg, v, rows + more, g)
  {
    if !NotForRun(cfg, w, g) {
      TriedLater(cfg, w, v, rows, more, g.name);
    }
  }

  lemma GuestHandledInSum(cfg: Config, w: Watch, rows: seq<Row>, more: seq<Row>, g: Server)
    requires GuestHandled(cfg, w, more, g)
    ensures GuestHandled(cfg, w, rows + more, g)
  {
    if !NotForRun(cfg, w, g) {
      TriedInSum(cfg, w, rows, more, g.name);
    }
  }

  lemma GuestsHandledLater(cfg: Config, w: Watch, v: Watch, rows: seq<Row>, more: seq<Row>, guests: seq<Guest>,
                           own: Option<string>)
    requires Onward(w, v) && GuestsHandled(cfg, w, rows, guests, own)
    ensures GuestsHandled(cfg, v, rows + more, guests, own)
  {
    forall g | g in guests && own != Some(g.name) && g.name in ServerMap(cfg.servers)
      ensures HasRow(rows + more, g.name) && GuestHandled(cfg, v, rows + more, ServerMap(cfg.servers)[g.name])
    {
      MachinesOfSum(rows, more);
      GuestHandledLater(cfg, w, v, rows, more, ServerMap(cfg.servers)[g.name]);
    }
  }

  lemma GuestsHandledInSum(cfg: Config, w: Watch, rows: seq<Row>, more: seq<Row>, guests: seq<Guest>,
                           own: Option<string>)
    requires GuestsHandled(cfg, w, more, guests, own)
    ensures GuestsHandled(cfg, w, rows + more, guests, own)
  {
    forall g | g in guests && own != Some(g.name) && g.name in ServerMap(cfg.servers)
      ensures HasRow(rows + more, g.name) && GuestHandled(cfg, w, rows + more, ServerMap(cfg.servers)[g.name])
    {
      MachinesOfSum(rows, more);
      GuestHandledInSum(cfg, w, rows, more, ServerMap(cfg.servers)[g.name]);
    }
  }

  lemma HostHandledLater(cfg: Config, w: Watch, v: Watch, rows: seq<Row>, more: seq<Row>, s: Server,
                         own: Option<string>)
    requires Onward(w, v) && HostHandled(cfg, w, rows, s, own)
    ensures HostHandled(cfg, v, rows + more, s, own)
  {
    HandledLater(cfg, w, v, rows, more, s);
    if !GuestsExcused(cfg, w, s) {
      GuestsHandledLater(cfg, w, v, rows, more, s.guests, own);
    }
  }

  lemma HostHandledInSum(cfg: Config, w: Watch, rows: seq<Row>, more: seq<Row>, s: Server, own: Option<string>)
    requires HostHandled(cfg, w, more, s, own)
    ensures HostHandled(cfg, w, rows + more, s, own)
  {
    HandledInSum(cfg, w, rows, more, s);
    if !GuestsExcused(cfg, w, s) {
      GuestsHandledInSum(cfg, w, rows, more, s.guests, own);
    }
  }

  /** What a run told `on_handoff`: the rows so far, and whose answer is still out. */
  datatype Handoff = Handoff(rows: seq<Row>, host: string, deadline: nat)

  /** The row for timar's own host, from the host's answer. */
  function OwnHostRow(name: string, answer: HostAnswer, note: string): (r: Row)
    ensures !r.skipped && r.wasRunning && r.subject == Machine(name)
    ensures r.success <==> answer.Reported? && answer.code == 0
  {
    match answer
    case Reported(0, _) => Row(Machine(name), true, true, false, NoDetail, note)
    case Reported(code, tail) => Failed(Machine(name), true, ExitCode(code, tail))
    case Gone => Failed(Machine(name), true, NeverReportedBack)
    case TimedOut => Failed(Machine(name), true, StillRunning)
  }

  /** The event that ends the wait for the own host. */
  predicate ToldOfOwn(e: Event, answer: HostAnswer) {
    if answer.TimedOut? then e.RanOut? || e == HandoffDone(answer) else e == HandoffDone(answer)
  }

  lemma OwnRowIsBacked(cfg: Config, w: Watch, name: string, answer: HostAnswer, note: string)
    requires w.handedOff == Some(name)
    requires var row := OwnHostRow(name, answer, note);
             if row.success then Worked(row.subject) in w.deeds else FailedOn(row.subject) in w.answers
    ensures OwnHostRow(name, answer, note) in BackedRows(cfg, w)
  {
  }

  /** Is `s` left to its hypervisor's step, to the end of the run, or out of it altogether? */
  predicate PassedOver(cfg: Config, s: Server, own: Option<string>) {
    s.name in ManagedNames(cfg.servers) || own == Some(s.name) || !s.ssh
  }

  /** Does the fleet walk begin a step of its own for `s`? */
  predicate Begins(cfg: Config, s: Server, own: Option<string>) {
    !PassedOver(cfg, s, own) && s.window.None?
  }

  /** The hosts a fleet walk begins from server `i` on: config order, timar's own last. */
  function Walk(cfg: Config, own: Option<string>, i: nat): (names: seq<string>)
    requires i <= |cfg.servers|
    decreases |cfg.servers| - i
  {
    if i == |cfg.servers| then (if own.Some? then [own.value] else [])
    else (if Begins(cfg, cfg.servers[i], own) then [cfg.servers[i].name] else []) + Walk(cfg, own, i + 1)
  }

  lemma WalkStep(cfg: Config, own: Option<string>, i: nat, begun: seq<string>)
    requires i < |cfg.servers|
    ensures begun + (if Begins(cfg, cfg.servers[i], own) then [cfg.servers[i].name] else []) + Walk(cfg, own, i + 1)
         == begun + Walk(cfg, own, i)
    ensures begun <= begun + Walk(cfg, own, i)
  {
  }

  function OwnName(own: Option<string>): set<string> {
    if own.Some? then {own.value} else {}
  }

  function GuestSet(s: Server): set<string> {
    set g | g in s.guests :: g.name
  }

  /** The machines other than timar's own that the run would find behind the name. */
  function Known(cfg: Config, name: string, own: Option<string>): set<string> {
    if own != Some(name) && name in ServerMap(cfg.servers) then {name} else {}
  }

  function KnownGuests(cfg: Config, guests: seq<Guest>, own: Option<string>): set<string> {
    set g | g in guests && own != Some(g.name) && g.name in ServerMap(cfg.servers) :: g.name
  }

  function GuestsBut(guests: seq<Guest>, own: Option<string>): set<string> {
    set g | g in guests && own != Some(g.name) :: g.name
  }

  lemma KnownSnoc(cfg: Config, guests: seq<Guest>, i: nat, own: Option<string>)
    requires i < |guests|
    ensures KnownGuests(cfg, guests[..i + 1], own) ==
            KnownGuests(cfg, guests[..i], own) + Known(cfg, guests[i].name, own)
  {
    assert guests[..i + 1] == guests[..i] + [guests[i]];
  }

  lemma KnownMore(cfg: Config, guests: seq<Guest>, i: nat, own: Option<string>, rows: seq<Row>, more: seq<Row>,
                  stop: bool)
    requires i < |guests| && MachinesIn(rows) == KnownGuests(cfg, guests[..i], own)
    requires MachinesIn(more) == if stop then {} else Known(cfg, guests[i].name, own)
    ensures MachinesIn(rows + more) == KnownGuests(cfg, guests[..if stop then i else i + 1], own)
  {
    MachinesOfSum(rows, more);
    KnownSnoc(cfg, guests, i, own);
  }

  predicate GuestsNotVisited(cfg: Config, w: Watch, s: Server) {
    Orderly(cfg.servers) ==> forall g | g in s.guests :: g.name !in w.visited
  }

  /** In an orderly configuration, neither the host nor its guests have had their visit yet. */
  predicate NotVisited(cfg: Config, w: Watch, s: Server) {
    (Orderly(cfg.servers) ==> s.name !in w.visited) && GuestsNotVisited(cfg, w, s)
  }

  // -- the walk over the guests of a host ------------------------------------

  /** What one turn of the loop over the guests does. */
  ghost predicate GuestTaken(cfg: Config, w: Watch, v: Watch, s: Server, i: nat, defer: Option<string>, stop: bool,
                             rows: seq<Row>)
    requires i < |s.guests|
  {
    var name := s.guests[i].name;
    && Later(w, v) && OnlyPhaseOf(w, v, name) && OnlyAwake(v, s.name)
    && (defer == Some(name) ==> SamePhase(w, v, name))
    && MachinesIn(rows) == (if stop then {} else Known(cfg, name, defer))
    && (stop ==> v.stopped && rows == [] && v.visited == w.visited)
    && v.guests == w.guests + (if stop then [] else [name])
  }

  /** The loop has come to guest `i`. */
  ghost predicate GuestWalk(cfg: Config, w: Watch, v: Watch, s: Server, defer: Option<string>, rows: seq<Row>, i: nat) {
    && i <= |s.guests| && Later(w, v) && SamePhase(w, v, s.name) && OnlyAwake(v, s.name)
    && (defer.Some? ==> SamePhase(w, v, defer.value))
    && v.visited <= w.visited + GuestSet(s)
    && (Orderly(cfg.servers) ==> forall k | i <= k < |s.guests| :: s.guests[k].name !in v.visited)
    && MachinesIn(rows) == KnownGuests(cfg, s.guests[..i], defer)
    && v.guests == w.guests + GuestNames(s.guests[..i])
  }

  /** Started, updated and shut down, a guest is where it was. */
  lemma GuestSleepsAgain(cfg: Config, w: Watch, u: Watch, v: Watch, host: string, g: Server, rows: seq<Row>)
    requires AtWork(w.(phases := u.phases), u) && IsIn(w, g.name, Off)
    requires u.phases == w.phases[g.name := Woken(Some(host))]
    requires Settled(Next(u, ShutDown(g.name)), v) && AllBacked(cfg, u, rows) && Tried(cfg, u, rows, g.name)
    ensures AtWork(w, v) && v.restarts == u.restarts
    ensures AllBacked(cfg, v, rows) && Tried(cfg, v, rows, g.name)
  {
    assert Onward(u, v);
    BackedLater(cfg, u, v, rows);
    TriedLater(cfg, u, v, rows, [], g.name);
    assert rows + [] == rows;
  }

  /** A machine that was called may come up, and nothing else has happened. */
  lemma CalledAndWaiting(cfg: Config, w: Watch, v: Watch, e: Event, n: string)
    requires (e.PacketSent? || e.VmStarted?) && n == e.server.name && MayCall(cfg, w, e.server)
    requires Settled(Next(w, e), v) && n in w.visited && (Orderly(cfg.servers) ==> n !in w.cameUp)
    ensures MayComeUp(cfg, v, n) && CanBeAsked(v, n)
    ensures AtWork(w, v) && v.restarts == w.restarts
    ensures forall on :: Settled(Next(Next(w, e), CameUp(n, on)), Next(v, CameUp(n, on)))
  {
  }

  /** A guest that was looked at and worked on: nothing else was touched. */
  lemma LookedThenWorked(w: Watch, u: Watch, v: Watch, host: string, name: string, up: bool)
    requires Settled(Next(w, Probed(name, up)), u) && AtWork(u, v) && v.restarts == {} && OnlyAwake(w, host)
    requires !Awake(w, name)
    ensures Later(w, v) && OnlyPhaseOf(w, v, name) && v.guests == w.guests && OnlyAwake(v, host)
  {
  }

  /** A guest with nothing to run is only looked at. */
  lemma JustLooked(cfg: Config, w: Watch, v: Watch, host: string, g: Server, up: bool)
    requires Settled(Next(w, Probed(g.name, up)), v) && v.restarts == {} && OnlyAwake(w, host)
    requires !Awake(w, g.name) && g in cfg.servers && !HasCommand(g)
    ensures Later(w, v) && OnlyPhaseOf(w, v, g.name) && v.guests == w.guests && OnlyAwake(v, host)
    ensures var rows := [Skipped(Machine(g.name), up, NoCommand)];
            AllBacked(cfg, v, rows) && MachinesIn(rows) == {g.name}
  {
    LookedThenWorked(w, v, v, host, g.name, up);
    SkippedIsBacked(cfg, v, Machine(g.name), up, NoCommand);
    OneRow(Skipped(Machine(g.name), up, NoCommand));
  }

  lemma VisitedByOne(w: Watch, v: Watch, name: string)
    requires OnlyPhaseOf(w, v, name)
    ensures v.visited <= w.visited + {name}
  {
    forall n | n in v.visited && n != name
      ensures n in w.visited
    {
      assert SamePhase(w, v, n);
    }
  }

  lemma LaterStill(w: Watch, u: Watch, v: Watch)
    requires Later(w, u) && Later(u, v)
    ensures Later(w, v)
  {
  }

  lemma VisitsMore(cfg: Config, w: Watch, u: Watch, v: Watch, s: Server, i: nat, stop: bool)
    requires i < |s.guests| && s in cfg.servers && OnlyPhaseOf(u, v, s.guests[i].name)
    requires u.visited <= w.visited + GuestSet(s) && (stop ==> v.visited == u.visited)
    requires Orderly(cfg.servers) ==> forall k | i <= k < |s.guests| :: s.guests[k].name !in u.visited
    ensures v.visited <= w.visited + GuestSet(s)
    ensures var next := if stop then i else i + 1;
            Orderly(cfg.servers) ==> forall k | next <= k < |s.guests| :: s.guests[k].name !in v.visited
  {
    VisitedByOne(u, v, s.guests[i].name);
    assert s.guests[i] in s.guests;
    assert Orderly(cfg.servers) ==> GuestsOnce(s.guests);
  }

  lemma BegunMore(before: seq<string>, names: seq<string>, after: seq<string>, guests: seq<Guest>, i: nat, stop: bool)
    requires i < |guests| && names == before + GuestNames(guests[..i])
    requires after == names + (if stop then [] else [guests[i].name])
    ensures after == before + GuestNames(guests[..if stop then i else i + 1])
  {
    assert GuestNames(guests[..i + 1]) == GuestNames(guests[..i]) + [guests[i].name];
  }

  lemma GuestWalkStep(cfg: Config, w: Watch, u: Watch, v: Watch, s: Server, defer: Option<string>, rows: seq<Row>,
                      more: seq<Row>, i: nat, stop: bool)
    requires i < |s.guests| && s in cfg.servers && s.guests[i].name != s.name
    requires GuestWalk(cfg, w, u, s, defer, rows, i) && GuestTaken(cfg, u, v, s, i, defer, stop, more)
    ensures GuestWalk(cfg, w, v, s, defer, rows + more, if stop then i else i + 1)
  {
    LaterStill(w, u, v);
    VisitsMore(cfg, w, u, v, s, i, stop);
    KnownMore(cfg, s.guests, i, defer, rows, more, stop);
    BegunMore(w.guests, u.guests, v.guests, s.guests, i, stop);
    assert SamePhase(u, v, s.name);
    assert defer.Some? ==> SamePhase(u, v, defer.value);
  }

  // -- the work on one host --------------------------------------------------

  /** What is done to a host that is up, and to its guests. */
  ghost predicate HostWorked(cfg: Config, w: Watch, v: Watch, s: Server, defer: Option<string>, rows: seq<Row>,
                             begun: nat) {
    && Later(w, v) && SamePhase(w, v, s.name) && (defer.Some? ==> SamePhase(w, v, defer.value))
    && v.visited <= w.visited + GuestSet(s)
    && OnlyAwake(v, s.name)
    && AllBacked(cfg, v, rows)
    && begun <= |s.guests|
    && rows != [] && rows[0].subject == Machine(s.name) && Handled(cfg, v, rows, s) && !OutOfRun(rows, s.name)
    && MachinesIn(rows) == {s.name} + KnownGuests(cfg, s.guests[..begun], defer)
    && v.guests == w.guests + GuestNames(s.guests[..begun])
    && GuestsHandled(cfg, v, rows, s.guests[..begun], defer)
    && (v.stopped || begun == |s.guests| || RaisedOn(s.name) in v.answers)
  }

  /** What the whole step of a host does: everything is as it was found afterwards, and without a stop
      its guests were all begun, unless there is a reason to leave them. */
  ghost predicate HostTaken(cfg: Config, w: Watch, v: Watch, s: Server, defer: Option<string>, raised: bool,
                            rows: seq<Row>, begun: nat) {
    && Later(w, v) && AsFound(v) && (defer.Some? ==> SamePhase(w, v, defer.value))
    && v.visited <= w.visited + {s.name} + GuestSet(s)
    && AllBacked(cfg, v, rows)
    && (raised <==> rows == [])
    && (raised ==> RunCut(s.name) in v.answers)
    && begun <= |s.guests|
    && (!raised ==>
        && rows[0].subject == Machine(s.name) && Handled(cfg, v, rows, s) && !OutOfRun(rows, s.name)
        && MachinesIn(rows) == {s.name} + KnownGuests(cfg, s.guests[..begun], defer))
    && v.guests == w.guests + GuestNames(s.guests[..begun])
    && GuestsHandled(cfg, v, rows, s.guests[..begun], defer)
    && (raised || v.stopped || begun == |s.guests| || GuestsExcused(cfg, v, s))
  }

  /** Rows of a host's own step: about it or its projects, and none that says it is not in the run. */
  ghost predicate OwnRowsOnly(rows: seq<Row>, name: string) {
    MachinesIn(rows) <= {name} && !OutOfRun(rows, name)
  }

  /** An exception ends the step of a host that is up: its row is added, and no guest is begun. */
  lemma StepCutShort(cfg: Config, w: Watch, v: Watch, s: Server, defer: Option<string>, rows: seq<Row>,
                     wasRunning: bool)
    requires AtWork(w.(taken := v.taken), v) && OnlyAwake(v, s.name) && Handled(cfg, v, rows, s)
    requires AllBacked(cfg, v, rows) && (rows != [] ==> rows[0].subject == Machine(s.name)) && OwnRowsOnly(rows, s.name)
    requires CutShort(v, s.name)
    ensures HostWorked(cfg, w, v, s, defer, rows + [Failed(Machine(s.name), wasRunning, Text("exception"))], 0)
  {
    var last := Failed(Machine(s.name), wasRunning, Text("exception"));
    FailedIsBacked(cfg, v, Machine(s.name), wasRunning, Text("exception"));
    MachinesOfSum(rows, [last]);
    OutOfSum(rows, [last], s.name);
    HandledLater(cfg, v, v, rows, [last], s);
    assert last in [last] && MachinesIn([last]) == {s.name};
    assert GuestNames(s.guests[..0]) == [];
  }

  /** The rows of `UpdateContainers` after a machine's own. */
  lemma ThenProjects(cfg: Config, w: Watch, row: Row, more: seq<Row>, n: string, raised: bool)
    requires row.subject == Machine(n) && MachinesIn(more) == {} && (raised ==> RaisedOn(n) in w.answers)
    requires !raised && !w.stopped ==>
               (|more| == 1 && more[0].subject == DockerOn(n)) ||
               ProjectsAt(more, ProjectsOf(cfg, n), n, 0)
    ensures MachinesIn([row] + more) == {n} && ProjectsTried(cfg, w, [row] + more, n)
    ensures OutOfRun([row] + more, n) <==> OutReason(row.error)
  {
    OneRow(row);
    MachinesOfSum([row], more);
    OutOfSum([row], more, n);
    if !raised && !w.stopped {
      assert DockerFailed(more, n) || ProjectsAt(more, ProjectsOf(cfg, n), n, 0);
      ListedInSum(cfg, [row], more, n);
    }
  }

  /** Timar's own host: handed off, or kept from it. Its projects come first, and their exception is the
      end of its step too. */
  ghost predicate OwnTried(cfg: Config, w: Watch, rows: seq<Row>, s: Server) {
    || NotForRun(cfg, w, s)
    || ((Attempted(s.name) in w.deeds || KeptFrom(s.name) in w.answers || RaisedOn(s.name) in w.answers)
        && ProjectsTried(cfg, w, rows, s.name))
  }

  /** Nothing else was done from the hand-off on. */
  lemma GivenThenAwaited(w: Watch, u: Watch, v: Watch, s: Server, deadline: nat)
    requires w.handedOff.None? && u == Next(w, HandedOff(s, deadline)) && Onward(u, v)
    requires v.hosts == u.hosts && v.guests == u.guests && v.visited == u.visited
    ensures Onward(w, v) && v.handedOff == Some(s.name) && Attempted(s.name) in v.deeds
    ensures v.hosts == w.hosts && v.guests == w.guests && v.visited == w.visited
  {
  }

  /** The rows of its projects, and then its own. */
  lemma ThenOwnRow(cfg: Config, w: Watch, rows: seq<Row>, last: Row, s: Server)
    requires MachinesIn(rows) == {} && ProjectsTried(cfg, w, rows, s.name) && last.subject == Machine(s.name)
    requires NotForRun(cfg, w, s) || Attempted(s.name) in w.deeds || KeptFrom(s.name) in w.answers ||
             RaisedOn(s.name) in w.answers
    ensures MachinesIn(rows + [last]) == {s.name} && OwnTried(cfg, w, rows + [last], s)
  {
    MachinesOfSum(rows, [last]);
    OneRow(last);
    if ProjectsListed(cfg, rows, s.name) {
      ListedInSum(cfg, rows, [last], s.name);
    }
  }

  lemma OwnTriedInSum(cfg: Config, w: Watch, rows: seq<Row>, more: seq<Row>, s: Server)
    requires OwnTried(cfg, w, more, s)
    ensures OwnTried(cfg, w, rows + more, s)
  {
    if ProjectsListed(cfg, more, s.name) {
      ListedInSum(cfg, rows, more, s.name);
    }
  }

  /** Restarting amends the first row, and no row's subject. */
  lemma Amended(cfg: Config, w: Watch, rows: seq<Row>, amended: seq<Row>, s: Server)
    requires rows != [] && |amended| == |rows| && amended[1..] == rows[1..]
    requires amended[0].subject == rows[0].subject == Machine(s.name)
    requires amended[0].error == rows[0].error || !OutReason(amended[0].error)
    requires OwnRowsOnly(rows, s.name) && Handled(cfg, w, rows, s)
    ensures OwnRowsOnly(amended, s.name) && Handled(cfg, w, amended, s)
    ensures MachinesIn(amended) == MachinesIn(rows)
  {
    assert rows == [rows[0]] + rows[1..] && amended == [amended[0]] + rows[1..];
    MachinesOfSum([rows[0]], rows[1..]);
    MachinesOfSum([amended[0]], rows[1..]);
    OneRow(rows[0]);
    OneRow(amended[0]);
    OutOfSum([rows[0]], rows[1..], s.name);
    OutOfSum([amended[0]], rows[1..], s.name);
    if ProjectsListed(cfg, rows, s.name) {
      SameSubjects(cfg, rows, amended, s.name);
    }
  }

  lemma SameSubjects(cfg: Config, rows: seq<Row>, amended: seq<Row>, host: string)
    requires |amended| == |rows| && forall k | 0 <= k < |rows| :: amended[k].subject == rows[k].subject
    requires ProjectsListed(cfg, rows, host)
    ensures ProjectsListed(cfg, amended, host)
  {
    if DockerFailed(rows, host) {
      var k :| 0 <= k < |rows| && rows[k].subject == DockerOn(host);
      assert amended[k] in amended;
    } else {
      var j: nat :| ProjectsAt(rows, ProjectsOf(cfg, host), host, j);
      assert ProjectsAt(amended, ProjectsOf(cfg, host), host, j);
    }
  }

  /** Called, and it did not come up: no guest is begun. */
  lemma HostStayedDown(cfg: Config, w: Watch, v: Watch, s: Server, defer: Option<string>, raised: bool)
    requires Settled(Next(w, PacketSent(s)), v) && AsFound(w) && s.name in w.foundDown && defer != Some(s.name)
    requires if raised then RunCut(s.name) in v.answers
             else FailedOn(Machine(s.name)) in v.answers && NoAnswer(s.name) in v.answers
    ensures var rows := if raised then [] else [Failed(Machine(s.name), false, DidNotComeUp)];
            HostTaken(cfg, w, v, s, defer, raised, rows, 0)
  {
    if !raised {
      FailedIsBacked(cfg, v, Machine(s.name), false, DidNotComeUp);
      OneRow(Failed(Machine(s.name), false, DidNotComeUp));
    }
    assert GuestNames(s.guests[..0]) == [];
  }

  /** A host with a reason to be left alone is, with its guests. */
  lemma LeftAlone(cfg: Config, w: Watch, s: Server, defer: Option<string>, row: Row)
    requires AsFound(w) && s in cfg.servers
    requires row == Skipped(Machine(s.name), row.wasRunning, row.error) && SkipIsDue(cfg, w, row)
    requires !HasCommand(s) || (OffByChoice(s) && s.name in w.foundDown)
    requires !OutReason(row.error)
    ensures HostTaken(cfg, w, w, s, defer, false, [row], 0)
  {
    SkippedIsBacked(cfg, w, row.subject, row.wasRunning, row.error);
    OneRow(row);
    assert GuestNames(s.guests[..0]) == [];
  }

  /** The first look at a host on its visit. */
  lemma LookedAt(cfg: Config, w: Watch, u: Watch, v: Watch, s: Server, up: bool)
    requires AsFound(w) && Member(cfg, w.enrolled, s) && HasCommand(s) && InStep(w) && NotVisited(cfg, w, s)
    requires forall g | g in s.guests :: g.name != s.name
    requires u == w.(visited := w.visited + {s.name}, taken := w.taken - {s.name}, line := Quiet)
    requires Settled(Next(u, Probed(s.name, up)), v)
    ensures Later(w, v) && AsFound(v) && OnlyPhaseOf(w, v, s.name)
    ensures v.guests == w.guests && v.visited == w.visited + {s.name}
    ensures Member(cfg, v.enrolled, s) && GuestsNotVisited(cfg, v, s)
    ensures IsIn(v, s.name, if up then Running else Off) && s.name !in v.taken
    ensures up ==> s.name in v.foundUp
    ensures !up ==> MayCall(cfg, v, s) && (Orderly(cfg.servers) ==> s.name !in v.cameUp)
  {
  }

  lemma HostTakenFrom(cfg: Config, w: Watch, u: Watch, v: Watch, s: Server, defer: Option<string>, raised: bool,
                      rows: seq<Row>, begun: nat)
    requires HostTaken(cfg, u, v, s, defer, raised, rows, begun)
    requires u.guests == w.guests && u.visited <= w.visited + {s.name} && (defer.Some? ==> SamePhase(w, u, defer.value))
    requires Later(w, u)
    ensures HostTaken(cfg, w, v, s, defer, raised, rows, begun)
  {
  }

  /** A host that answered its call is ready, and nothing else is awake. */
  lemma HostWoken(cfg: Config, w: Watch, v: Watch, s: Server, defer: Option<string>)
    requires Settled(Next(Next(w, PacketSent(s)), CameUp(s.name, None)), v)
    requires MayCall(cfg, w, s) && AsFound(w) && s.name !in w.taken && s.name in w.visited
    requires GuestsNotVisited(cfg, w, s) && defer != Some(s.name)
    ensures Ready(cfg, v, s) && Awake(v, s.name) && OnlyAwake(v, s.name) && GuestsNotVisited(cfg, v, s)
    ensures v.handedOff == w.handedOff && Later(w, v) && v.guests == w.guests && v.visited <= w.visited + {s.name}
    ensures defer.Some? ==> SamePhase(w, v, defer.value)
  {
  }

  lemma WorkThenSleep(cfg: Config, w: Watch, u: Watch, v: Watch, s: Server, defer: Option<string>, rows: seq<Row>,
                      begun: nat)
    requires HostWorked(cfg, w, u, s, defer, rows, begun) && defer != Some(s.name)
    requires Settled(Next(u, ShutDown(s.name)), v)
    ensures HostTaken(cfg, w, v, s, defer, false, rows, begun)
  {
    assert Onward(u, v);
    BackedLater(cfg, u, v, rows);
    HandledLater(cfg, u, v, rows, [], s);
    GuestsHandledLater(cfg, u, v, rows, [], s.guests[..begun], defer);
    assert rows + [] == rows;
  }

  lemma HostThenGuests(cfg: Config, w: Watch, u: Watch, v: Watch, s: Server, defer: Option<string>, rows: seq<Row>,
                       more: seq<Row>, begun: nat)
    requires AtWork(w.(taken := u.taken), u)
    requires AllBacked(cfg, u, rows) && rows != [] && rows[0].subject == Machine(s.name) && Handled(cfg, u, rows, s)
    requires OwnRowsOnly(rows, s.name) && forall g | g in s.guests :: g.name != s.name
    requires GuestWalk(cfg, u, v, s, defer, more, begun) && AllBacked(cfg, v, more)
    requires GuestsHandled(cfg, v, more, s.guests[..begun], defer)
    requires begun == |s.guests| || v.stopped
    ensures HostWorked(cfg, w, v, s, defer, rows + more, begun)
  {
    BackedLater(cfg, u, v, rows);
    HandledLater(cfg, u, v, rows, more, s);
    GuestsHandledInSum(cfg, v, rows, more, s.guests[..begun], defer);
    MachinesOfSum(rows, more);
    OutOfSum(rows, more, s.name);
    assert rows[0] in rows;
  }

  /** The host and its first `i` guests have the rows of a host that is not in the run. */
  ghost predicate LeftOutUpTo(cfg: Config, w: Watch, rows: seq<Row>, s: Server, own: Option<string>, i: nat) {
    && i <= |s.guests| && AllBacked(cfg, w, rows) && OutOfRun(rows, s.name)
    && MachinesIn(rows) == {s.name} + GuestsBut(s.guests[..i], own)
  }

  lemma OneMoreLeftOut(cfg: Config, w: Watch, rows: seq<Row>, s: Server, own: Option<string>, i: nat)
    requires i < |s.guests| && LeftOutUpTo(cfg, w, rows, s, own, i) && s in cfg.servers && !Member(cfg, w.start, s)
    ensures own == Some(s.guests[i].name) ==> LeftOutUpTo(cfg, w, rows, s, own, i + 1)
    ensures own != Some(s.guests[i].name) ==>
              var row := Skipped(Machine(s.guests[i].name), false, HypervisorNotInRun(s.name));
              LeftOutUpTo(cfg, w, rows + [row], s, own, i + 1)
  {
    var row := Skipped(Machine(s.guests[i].name), false, HypervisorNotInRun(s.name));
    assert s.guests[i] in s.guests && SkipIsDue(cfg, w, row);
    SkippedIsBacked(cfg, w, row.subject, false, row.error);
    OneMoreRow(rows, row, s.name);
    assert s.guests[..i + 1] == s.guests[..i] + [s.guests[i]];
  }

  // -- the walk over the fleet -----------------------------------------------

  /** The machines a walk may have visited before server `i`. */
  function Reach(cfg: Config, own: Option<string>, i: nat): set<string>
    requires i <= |cfg.servers|
  {
    if i == 0 then {}
    else
      var s := cfg.servers[i - 1];
      Reach(cfg, own, i - 1) + (if Begins(cfg, s, own) then {s.name} + GuestSet(s) else {})
  }

  /** The guests begun by the hosts before server `i`, in order: of each host a first part. */
  ghost predicate GuestsInOrder(cfg: Config, own: Option<string>, i: nat, guests: seq<string>)
    requires i <= |cfg.servers|
  {
    if i == 0 then guests == []
    else
      var s := cfg.servers[i - 1];
      exists begun: nat ::
        GuestsOfHost(cfg, s, own, guests, begun) && GuestsInOrder(cfg, own, i - 1, guests[..|guests| - begun])
  }

  /** The last `begun` are the first guests of the host. */
  ghost predicate GuestsOfHost(cfg: Config, s: Server, own: Option<string>, guests: seq<string>, begun: nat) {
    begun <= |s.guests| && (begun > 0 ==> Begins(cfg, s, own)) && EndsIn(guests, GuestNames(s.guests[..begun]))
  }

  predicate EndsIn(names: seq<string>, last: seq<string>) {
    |last| <= |names| && names[|names| - |last|..] == last
  }

  lemma GuestsSnoc(cfg: Config, own: Option<string>, i: nat, guests: seq<string>, begun: nat)
    requires i < |cfg.servers| && GuestsInOrder(cfg, own, i, guests)
    requires begun <= |cfg.servers[i].guests| && (begun > 0 ==> Begins(cfg, cfg.servers[i], own))
    ensures GuestsInOrder(cfg, own, i + 1, guests + GuestNames(cfg.servers[i].guests[..begun]))
  {
    var more := GuestNames(cfg.servers[i].guests[..begun]);
    assert (guests + more)[|guests|..] == more;
    assert (guests + more)[..|guests + more| - begun] == guests;
    assert GuestsOfHost(cfg, cfg.servers[i], own, guests + more, begun);
  }

  lemma {:induction false} GuestsToTheEnd(cfg: Config, own: Option<string>, i: nat, guests: seq<string>)
    requires i <= |cfg.servers| && GuestsInOrder(cfg, own, i, guests)
    ensures GuestsInOrder(cfg, own, |cfg.servers|, guests)
    decreases |cfg.servers| - i
  {
    if i < |cfg.servers| {
      GuestsSnoc(cfg, own, i, guests, 0);
      assert guests + GuestNames(cfg.servers[i].guests[..0]) == guests;
      GuestsToTheEnd(cfg, own, i + 1, guests);
    }
  }

  lemma GuestIsManaged(cfg: Config, k: nat, n: string)
    requires k < |cfg.servers| && n in GuestSet(cfg.servers[k])
    ensures n in ManagedNames(cfg.servers)
  {
    var g :| g in cfg.servers[k].guests && g.name == n;
    var j :| 0 <= j < |cfg.servers[k].guests| && cfg.servers[k].guests[j] == g;
    assert cfg.servers[k].guests[j].name == n;
  }

  /** Where each machine is configured once, the steps of two servers share none. */
  lemma StepsApart(cfg: Config, own: Option<string>, k: nat, i: nat, n: string)
    requires Orderly(cfg.servers) && k < i < |cfg.servers|
    requires Begins(cfg, cfg.servers[k], own) && Begins(cfg, cfg.servers[i], own)
    requires n == cfg.servers[i].name || n in GuestSet(cfg.servers[i])
    ensures n != cfg.servers[k].name && n !in GuestSet(cfg.servers[k])
  {
    if n in GuestSet(cfg.servers[i]) {
      GuestIsManaged(cfg, i, n);
    } else if n in GuestSet(cfg.servers[k]) {
      GuestIsManaged(cfg, k, n);
    }
  }

  lemma {:induction false} NotReachedYet(cfg: Config, own: Option<string>, j: nat, i: nat, n: string)
    requires Orderly(cfg.servers) && j <= i < |cfg.servers| && Begins(cfg, cfg.servers[i], own)
    requires n == cfg.servers[i].name || n in GuestSet(cfg.servers[i])
    ensures n !in Reach(cfg, own, j)
  {
    if j > 0 {
      NotReachedYet(cfg, own, j - 1, i, n);
      if Begins(cfg, cfg.servers[j - 1], own) {
        StepsApart(cfg, own, j - 1, i, n);
      }
    }
  }

  /** The machines a turn of the walk puts into the report. `out`: the host is not in the run. */
  ghost function TurnLists(cfg: Config, s: Server, own: Option<string>, out: bool, begun: nat): set<string>
    requires begun <= |s.guests|
  {
    if PassedOver(cfg, s, own) then {}
    else if s.window.Some? then {s.name}
    else if out then {s.name} + GuestsBut(s.guests, own)
    else {s.name} + KnownGuests(cfg, s.guests[..begun], own)
  }

  /** What one turn of the walk does to the log and adds to the report. */
  ghost predicate TurnTaken(cfg: Config, w: Watch, v: Watch, s: Server, own: Option<string>,
                            stop: bool, raised: bool, rows: seq<Row>, begun: nat) {
    && AllBacked(cfg, v, rows)
    && (stop ==> !raised && v.stopped && rows == [] && v.hosts == w.hosts)
    && (raised ==> RunCut(s.name) in v.answers)
    && (!stop ==> v.hosts == w.hosts + (if Begins(cfg, s, own) then [s.name] else []))
    && v.visited <= w.visited + (if Begins(cfg, s, own) then {s.name} + GuestSet(s) else {})
    && begun <= |s.guests| && (begun > 0 ==> Begins(cfg, s, own))
    && v.guests == w.guests + GuestNames(s.guests[..begun])
    && (!stop && !raised ==> MachinesIn(rows) == TurnLists(cfg, s, own, OutOfRun(rows, s.name), begun))
    && (!stop && !raised && !v.stopped && Begins(cfg, s, own) ==> HostHandled(cfg, v, rows, s, own))
  }

  /** What a host's step, or its being left out, does to the log and adds to the report. */
  ghost predicate ServerVisited(cfg: Config, w: Watch, v: Watch, s: Server, own: Option<string>, raised: bool,
                                rows: seq<Row>, begun: nat) {
    && Later(w, v) && AsFound(v) && (own.Some? ==> SamePhase(w, v, own.value))
    && v.visited <= w.visited + {s.name} + GuestSet(s)
    && AllBacked(cfg, v, rows)
    && begun <= |s.guests| && v.guests == w.guests + GuestNames(s.guests[..begun])
    && (begun > 0 ==> !OutOfRun(rows, s.name))
    && (raised ==> RunCut(s.name) in v.answers)
    && (!raised ==>
          MachinesIn(rows) == {s.name} + if OutOfRun(rows, s.name) then GuestsBut(s.guests, own)
                                         else KnownGuests(cfg, s.guests[..begun], own))
    && (!raised && !v.stopped ==> HostHandled(cfg, v, rows, s, own))
  }

  lemma VisitIsATurn(cfg: Config, w: Watch, u: Watch, v: Watch, s: Server, own: Option<string>, raised: bool,
                     rows: seq<Row>, begun: nat)
    requires AsFound(w) && w.handedOff.None? && Begins(cfg, s, own)
    requires Settled(Next(w, HostBegun(s.name)), u) && ServerVisited(cfg, u, v, s, own, raised, rows, begun)
    ensures WalkingOn(w, v, own) && TurnTaken(cfg, w, v, s, own, false, raised, rows, begun)
  {
    assert own.Some? ==> SamePhase(u, v, own.value);
  }

  // -- which machines the report lists ---------------------------------------

  ghost predicate HostBefore(cfg: Config, own: Option<string>, i: nat, n: string)
    requires i <= |cfg.servers|
  {
    exists k :: 0 <= k < i && !PassedOver(cfg, cfg.servers[k], own) && cfg.servers[k].name == n
  }

  ghost predicate GuestBefore(cfg: Config, own: Option<string>, i: nat, n: string)
    requires i <= |cfg.servers|
  {
    exists k :: 0 <= k < i && Begins(cfg, cfg.servers[k], own) && n in GuestSet(cfg.servers[k])
  }

  /** It is a guest of a host that the report says is not in the run. */
  ghost predicate GuestOfOut(cfg: Config, rows: seq<Row>, own: Option<string>, i: nat, n: string)
    requires i <= |cfg.servers|
  {
    exists k :: 0 <= k < i && Begins(cfg, cfg.servers[k], own) && n in GuestSet(cfg.servers[k]) &&
      OutOfRun(rows, cfg.servers[k].name)
  }

  /** The machines the report lists once the walk has come to server `i`: hosts that have a turn, guests
      that were begun, and the guests of hosts that are not in the run. */
  ghost predicate Listed(cfg: Config, w: Watch, rows: seq<Row>, own: Option<string>, i: nat, n: string)
    requires i <= |cfg.servers|
  {
    || HostBefore(cfg, own, i, n)
    || (own != Some(n) && n in w.guests && n in ServerMap(cfg.servers))
    || (own != Some(n) && GuestOfOut(cfg, rows, own, i, n))
  }

  ghost predicate ListedSoFar(cfg: Config, w: Watch, rows: seq<Row>, own: Option<string>, i: nat)
    requires i <= |cfg.servers|
  {
    && (forall n | HasRow(rows, n) :: Listed(cfg, w, rows, own, i, n))
    && (forall n | HostBefore(cfg, own, i, n) :: HasRow(rows, n))
    && (UniqueNames(cfg.servers) ==> forall n | Listed(cfg, w, rows, own, i, n) :: HasRow(rows, n))
  }

  lemma {:induction false} GuestsCameBefore(cfg: Config, own: Option<string>, i: nat, guests: seq<string>, n: string)
    requires i <= |cfg.servers| && GuestsInOrder(cfg, own, i, guests) && n in guests
    ensures GuestBefore(cfg, own, i, n)
  {
    var s := cfg.servers[i - 1];
    var begun: nat :| GuestsOfHost(cfg, s, own, guests, begun) &&
      GuestsInOrder(cfg, own, i - 1, guests[..|guests| - begun]);
    if n in guests[..|guests| - begun] {
      GuestsCameBefore(cfg, own, i - 1, guests[..|guests| - begun], n);
    } else {
      AmongTheLast(cfg, s, own, guests, begun, n);
      assert n in GuestSet(cfg.servers[i - 1]) && Begins(cfg, cfg.servers[i - 1], own);
    }
  }

  lemma AmongTheLast(cfg: Config, s: Server, own: Option<string>, guests: seq<string>, begun: nat, n: string)
    requires GuestsOfHost(cfg, s, own, guests, begun) && n in guests && n !in guests[..|guests| - begun]
    ensures n in GuestSet(s) && Begins(cfg, s, own)
  {
    assert guests == guests[..|guests| - begun] + GuestNames(s.guests[..begun]);
    NamedGuest(s.guests[..begun], n);
  }

  /** A guest has no turn of its own. */
  lemma GuestBegins(cfg: Config, own: Option<string>, i: nat, n: string, s: Server)
    requires i <= |cfg.servers| && GuestBefore(cfg, own, i, n) && s.name == n
    ensures PassedOver(cfg, s, own)
  {
    var k :| 0 <= k < i && Begins(cfg, cfg.servers[k], own) && n in GuestSet(cfg.servers[k]);
    GuestIsManaged(cfg, k, n);
  }

  lemma TurnOfSum(cfg: Config, w: Watch, v: Watch, rows: seq<Row>, more: seq<Row>, own: Option<string>, i: nat,
                  begun: nat, n: string)
    requires i < |cfg.servers| && begun <= |cfg.servers[i].guests| && (begun > 0 ==> Begins(cfg, cfg.servers[i], own))
    requires v.guests == w.guests + GuestNames(cfg.servers[i].guests[..begun])
    requires var s := cfg.servers[i]; MachinesIn(more) == TurnLists(cfg, s, own, OutOfRun(more, s.name), begun)
    ensures HasRow(more, n) ==> Listed(cfg, v, rows + more, own, i + 1, n)
    ensures Listed(cfg, w, rows, own, i, n) ==> Listed(cfg, v, rows + more, own, i + 1, n)
  {
    var s := cfg.servers[i];
    OutOfSum(rows, more, s.name);
    if HasRow(more, n) && n != s.name {
      if !OutOfRun(more, s.name) {
        var g :| g in s.guests[..begun] && own != Some(g.name) && g.name in ServerMap(cfg.servers) && g.name == n;
        var j :| 0 <= j < begun && s.guests[..begun][j] == g;
        assert GuestNames(s.guests[..begun])[j] == n;
      } else {
        assert n in GuestSet(s) && Begins(cfg, s, own);
      }
    }
    if GuestOfOut(cfg, rows, own, i, n) {
      var k :| 0 <= k < i && Begins(cfg, cfg.servers[k], own) && n in GuestSet(cfg.servers[k]) &&
        OutOfRun(rows, cfg.servers[k].name);
      OutOfSum(rows, more, cfg.servers[k].name);
    }
  }

  lemma NotAGuest(cfg: Config, own: Option<string>, i: nat, s: Server)
    requires i <= |cfg.servers| && Begins(cfg, s, own)
    ensures !GuestBefore(cfg, own, i, s.name)
  {
    if GuestBefore(cfg, own, i, s.name) {
      GuestBegins(cfg, own, i, s.name, s);
    }
  }

  /** A turn lists no other host that has a turn. */
  lemma NotInAnothersTurn(cfg: Config, own: Option<string>, i: nat, k: nat, out: bool, begun: nat)
    requires UniqueNames(cfg.servers) && k < i < |cfg.servers| && begun <= |cfg.servers[i].guests|
    requires Begins(cfg, cfg.servers[k], own)
    ensures cfg.servers[k].name !in TurnLists(cfg, cfg.servers[i], own, out, begun)
  {
    var n := cfg.servers[k].name;
    if n in GuestSet(cfg.servers[i]) {
      GuestIsManaged(cfg, i, n);
    }
  }

  lemma OutIsBefore(cfg: Config, rows: seq<Row>, own: Option<string>, i: nat, n: string)
    requires i <= |cfg.servers|
    ensures GuestOfOut(cfg, rows, own, i, n) ==> GuestBefore(cfg, own, i, n)
  {
  }

  lemma NoRowYet(cfg: Config, w: Watch, rows: seq<Row>, own: Option<string>, i: nat)
    requires UniqueNames(cfg.servers) && i < |cfg.servers| && Begins(cfg, cfg.servers[i], own)
    requires ListedSoFar(cfg, w, rows, own, i) && GuestsInOrder(cfg, own, i, w.guests)
    ensures !HasRow(rows, cfg.servers[i].name)
  {
    var n := cfg.servers[i].name;
    NotAGuest(cfg, own, i, cfg.servers[i]);
    OutIsBefore(cfg, rows, own, i, n);
    if n in w.guests {
      GuestsCameBefore(cfg, own, i, w.guests, n);
    }
  }

  /** With unique names, only a host's own turn says that it is not in the run. */
  lemma OutBefore(cfg: Config, rows: seq<Row>, more: seq<Row>, own: Option<string>, i: nat, begun: nat, k: nat)
    requires UniqueNames(cfg.servers) && k < i < |cfg.servers| && begun <= |cfg.servers[i].guests|
    requires var s := cfg.servers[i]; MachinesIn(more) == TurnLists(cfg, s, own, OutOfRun(more, s.name), begun)
    requires Begins(cfg, cfg.servers[k], own) && OutOfRun(rows + more, cfg.servers[k].name)
    ensures OutOfRun(rows, cfg.servers[k].name)
  {
    OutOfSum(rows, more, cfg.servers[k].name);
    NotInAnothersTurn(cfg, own, i, k, OutOfRun(more, cfg.servers[i].name), begun);
  }

  lemma OutNow(cfg: Config, w: Watch, rows: seq<Row>, more: seq<Row>, own: Option<string>, i: nat)
    requires UniqueNames(cfg.servers) && i < |cfg.servers| && Begins(cfg, cfg.servers[i], own)
    requires ListedSoFar(cfg, w, rows, own, i) && GuestsInOrder(cfg, own, i, w.guests)
    requires OutOfRun(rows + more, cfg.servers[i].name)
    ensures OutOfRun(more, cfg.servers[i].name)
  {
    OutOfSum(rows, more, cfg.servers[i].name);
    NoRowYet(cfg, w, rows, own, i);
  }

  lemma HostTurnListed(cfg: Config, rows: seq<Row>, more: seq<Row>, own: Option<string>, i: nat, begun: nat, n: string)
    requires i < |cfg.servers| && begun <= |cfg.servers[i].guests| && HostBefore(cfg, own, i + 1, n)
    requires HostBefore(cfg, own, i, n) ==> HasRow(rows, n)
    requires var s := cfg.servers[i]; MachinesIn(more) == TurnLists(cfg, s, own, OutOfRun(more, s.name), begun)
    ensures HasRow(rows, n) || HasRow(more, n)
  {
    assert HostBefore(cfg, own, i, n) || (n == cfg.servers[i].name && !PassedOver(cfg, cfg.servers[i], own));
  }

  lemma BegunListed(cfg: Config, rows: seq<Row>, more: seq<Row>, own: Option<string>, i: nat, begun: nat, n: string)
    requires i < |cfg.servers| && begun <= |cfg.servers[i].guests| && (begun > 0 ==> Begins(cfg, cfg.servers[i], own))
    requires own != Some(n) && n in ServerMap(cfg.servers) && n in GuestNames(cfg.servers[i].guests[..begun])
    requires var s := cfg.servers[i]; MachinesIn(more) == TurnLists(cfg, s, own, OutOfRun(more, s.name), begun)
    ensures HasRow(more, n)
  {
    NamedGuest(cfg.servers[i].guests[..begun], n);
  }

  lemma OutListed(cfg: Config, w: Watch, rows: seq<Row>, more: seq<Row>, own: Option<string>, i: nat, begun: nat,
                  n: string)
    requires UniqueNames(cfg.servers) && i < |cfg.servers| && begun <= |cfg.servers[i].guests|
    requires ListedSoFar(cfg, w, rows, own, i) && GuestsInOrder(cfg, own, i, w.guests)
    requires var s := cfg.servers[i]; MachinesIn(more) == TurnLists(cfg, s, own, OutOfRun(more, s.name), begun)
    requires own != Some(n) && GuestOfOut(cfg, rows + more, own, i + 1, n)
    ensures HasRow(rows, n) || HasRow(more, n)
  {
    var k :| 0 <= k < i + 1 && Begins(cfg, cfg.servers[k], own) && n in GuestSet(cfg.servers[k]) &&
      OutOfRun(rows + more, cfg.servers[k].name);
    if k == i {
      OutNow(cfg, w, rows, more, own, i);
    } else {
      OutBefore(cfg, rows, more, own, i, begun, k);
      assert GuestOfOut(cfg, rows, own, i, n);
      assert Listed(cfg, w, rows, own, i, n);
    }
  }

  lemma TurnIsListed(cfg: Config, w: Watch, v: Watch, rows: seq<Row>, more: seq<Row>, own: Option<string>, i: nat,
                     begun: nat, n: string)
    requires UniqueNames(cfg.servers) && i < |cfg.servers| && ListedSoFar(cfg, w, rows, own, i)
    requires begun <= |cfg.servers[i].guests| && (begun > 0 ==> Begins(cfg, cfg.servers[i], own))
    requires GuestsInOrder(cfg, own, i, w.guests)
    requires v.guests == w.guests + GuestNames(cfg.servers[i].guests[..begun])
    requires var s := cfg.servers[i]; MachinesIn(more) == TurnLists(cfg, s, own, OutOfRun(more, s.name), begun)
    requires Listed(cfg, v, rows + more, own, i + 1, n)
    ensures HasRow(rows, n) || HasRow(more, n)
  {
    if HostBefore(cfg, own, i + 1, n) {
      HostTurnListed(cfg, rows, more, own, i, begun, n);
    } else if n in w.guests && n in ServerMap(cfg.servers) {
      assert Listed(cfg, w, rows, own, i, n);
    } else if n in v.guests && n in ServerMap(cfg.servers) {
      BegunListed(cfg, rows, more, own, i, begun, n);
    } else {
      OutListed(cfg, w, rows, more, own, i, begun, n);
    }
  }

  lemma ListedAfter(cfg: Config, w: Watch, v: Watch, rows: seq<Row>, more: seq<Row>, own: Option<string>, i: nat,
                    begun: nat, n: string)
    requires i < |cfg.servers| && ListedSoFar(cfg, w, rows, own, i) && GuestsInOrder(cfg, own, i, w.guests)
    requires begun <= |cfg.servers[i].guests| && (begun > 0 ==> Begins(cfg, cfg.servers[i], own))
    requires v.guests == w.guests + GuestNames(cfg.servers[i].guests[..begun])
    requires var s := cfg.servers[i]; MachinesIn(more) == TurnLists(cfg, s, own, OutOfRun(more, s.name), begun)
    ensures HasRow(rows + more, n) ==> Listed(cfg, v, rows + more, own, i + 1, n)
    ensures HostBefore(cfg, own, i + 1, n) ==> HasRow(rows + more, n)
    ensures UniqueNames(cfg.servers) && Listed(cfg, v, rows + more, own, i + 1, n) ==> HasRow(rows + more, n)
  {
    MachinesOfSum(rows, more);
    TurnOfSum(cfg, w, v, rows, more, own, i, begun, n);
    if HostBefore(cfg, own, i + 1, n) {
      HostTurnListed(cfg, rows, more, own, i, begun, n);
    }
    if UniqueNames(cfg.servers) && Listed(cfg, v, rows + more, own, i + 1, n) {
      TurnIsListed(cfg, w, v, rows, more, own, i, begun, n);
    }
  }

  lemma ListedMore(cfg: Config, w: Watch, v: Watch, rows: seq<Row>, more: seq<Row>, own: Option<string>, i: nat,
                   begun: nat)
    requires i < |cfg.servers| && ListedSoFar(cfg, w, rows, own, i) && GuestsInOrder(cfg, own, i, w.guests)
    requires begun <= |cfg.servers[i].guests| && (begun > 0 ==> Begins(cfg, cfg.servers[i], own))
    requires v.guests == w.guests + GuestNames(cfg.servers[i].guests[..begun])
    requires var s := cfg.servers[i]; MachinesIn(more) == TurnLists(cfg, s, own, OutOfRun(more, s.name), begun)
    ensures ListedSoFar(cfg, v, rows + more, own, i + 1)
  {
    forall n
      ensures HasRow(rows + more, n) ==> Listed(cfg, v, rows + more, own, i + 1, n)
      ensures HostBefore(cfg, own, i + 1, n) ==> HasRow(rows + more, n)
      ensures UniqueNames(cfg.servers) && Listed(cfg, v, rows + more, own, i + 1, n) ==> HasRow(rows + more, n)
    {
      ListedAfter(cfg, w, v, rows, more, own, i, begun, n);
    }
  }

  // -- how far the walk has come ---------------------------------------------

  ghost predicate HostsHandled(cfg: Config, w: Watch, rows: seq<Row>, own: Option<string>, i: nat)
    requires i <= |cfg.servers|
  {
    forall k | 0 <= k < i && Begins(cfg, cfg.servers[k], own) :: HostHandled(cfg, w, rows, cfg.servers[k], own)
  }

  ghost predicate HostsHaveRows(w: Watch, rows: seq<Row>) {
    forall n | n in w.hosts :: HasRow(rows, n)
  }

  lemma HostsStillHaveRows(w: Watch, v: Watch, rows: seq<Row>, more: seq<Row>, name: string)
    requires HostsHaveRows(w, rows)
    requires v.hosts == w.hosts || (v.hosts == w.hosts + [name] && MachinesIn(more) == {name})
    ensures HostsHaveRows(v, rows + more)
  {
    MachinesOfSum(rows, more);
  }

  /** The walk has come to server `i`. */
  ghost predicate Walked(cfg: Config, w: Watch, rows: seq<Row>, own: Option<string>, i: nat)
    requires i <= |cfg.servers|
  {
    && AllBacked(cfg, w, rows)
    && w.hosts + Walk(cfg, own, i) == Walk(cfg, own, 0)
    && HostsHaveRows(w, rows)
    && w.visited <= Reach(cfg, own, i)
    && GuestsInOrder(cfg, own, i, w.guests)
    && ListedSoFar(cfg, w, rows, own, i)
    && (!w.stopped ==> HostsHandled(cfg, w, rows, own, i))
  }

  lemma NothingWalked(cfg: Config, w: Watch, own: Option<string>)
    requires w.hosts == [] && w.visited == {} && w.guests == []
    ensures Walked(cfg, w, [], own, 0)
  {
  }

  lemma FreshSteps(cfg: Config, w: Watch, rows: seq<Row>, own: Option<string>, i: nat)
    requires i < |cfg.servers| && Walked(cfg, w, rows, own, i)
    ensures Begins(cfg, cfg.servers[i], own) ==> NotVisited(cfg, w, cfg.servers[i])
  {
    if Orderly(cfg.servers) && Begins(cfg, cfg.servers[i], own) {
      NotReachedYet(cfg, own, i, i, cfg.servers[i].name);
      forall g | g in cfg.servers[i].guests
        ensures g.name !in w.visited
      {
        NotReachedYet(cfg, own, i, i, g.name);
      }
    }
  }

  lemma HostsHandledMore(cfg: Config, w: Watch, v: Watch, rows: seq<Row>, more: seq<Row>, own: Option<string>, i: nat)
    requires i < |cfg.servers| && Onward(w, v) && HostsHandled(cfg, w, rows, own, i)
    requires Begins(cfg, cfg.servers[i], own) ==> HostHandled(cfg, v, more, cfg.servers[i], own)
    ensures HostsHandled(cfg, v, rows + more, own, i + 1)
  {
    forall k | 0 <= k <= i && Begins(cfg, cfg.servers[k], own)
      ensures HostHandled(cfg, v, rows + more, cfg.servers[k], own)
    {
      if k < i {
        HostHandledLater(cfg, w, v, rows, more, cfg.servers[k], own);
      } else {
        HostHandledInSum(cfg, v, rows, more, cfg.servers[k], own);
      }
    }
  }

  lemma OneGuestMore(cfg: Config, w: Watch, rows: seq<Row>, more: seq<Row>, guests: seq<Guest>, i: nat,
                     own: Option<string>)
    requires i < |guests| && GuestsHandled(cfg, w, rows + more, guests[..i], own)
    requires own != Some(guests[i].name) && guests[i].name in ServerMap(cfg.servers) ==>
               HasRow(more, guests[i].name) && GuestHandled(cfg, w, more, ServerMap(cfg.servers)[guests[i].name])
    ensures GuestsHandled(cfg, w, rows + more, guests[..i + 1], own)
  {
    MachinesOfSum(rows, more);
    if own != Some(guests[i].name) && guests[i].name in ServerMap(cfg.servers) {
      GuestHandledInSum(cfg, w, rows, more, ServerMap(cfg.servers)[guests[i].name]);
    }
    assert guests[..i + 1] == guests[..i] + [guests[i]];
  }

  lemma HostsInOrder(cfg: Config, w: Watch, v: Watch, own: Option<string>, i: nat, stop: bool)
    requires i < |cfg.servers| && w.hosts + Walk(cfg, own, i) == Walk(cfg, own, 0)
    requires v.hosts == w.hosts + (if !stop && Begins(cfg, cfg.servers[i], own) then [cfg.servers[i].name] else [])
    ensures v.hosts <= Walk(cfg, own, 0)
    ensures !stop ==> v.hosts + Walk(cfg, own, i + 1) == Walk(cfg, own, 0)
  {
    WalkStep(cfg, own, i, w.hosts);
  }

  lemma {:induction false} ReachGrows(cfg: Config, own: Option<string>, i: nat, j: nat)
    requires i <= j <= |cfg.servers|
    ensures Reach(cfg, own, i) <= Reach(cfg, own, j)
    decreases j
  {
    if i < j {
      ReachGrows(cfg, own, i, j - 1);
    }
  }

  /** Between two turns nothing is on, nothing handed off, and timar's own host is as it was. */
  ghost predicate WalkingOn(w: Watch, v: Watch, own: Option<string>) {
    Onward(w, v) && AsFound(v) && v.handedOff.None? && (own.Some? ==> SamePhase(w, v, own.value))
  }

  lemma WalksOn(w: Watch, u: Watch, v: Watch, own: Option<string>)
    requires WalkingOn(w, u, own) && WalkingOn(u, v, own)
    ensures WalkingOn(w, v, own)
  {
  }

  /** What a walk keeps, however it ends. */
  ghost predicate OnItsWay(cfg: Config, w: Watch, rows: seq<Row>, own: Option<string>) {
    && AllBacked(cfg, w, rows)
    && w.hosts <= Walk(cfg, own, 0) && GuestsInOrder(cfg, own, |cfg.servers|, w.guests)
    && w.visited <= Reach(cfg, own, |cfg.servers|)
  }

  lemma TurnStaysOnItsWay(cfg: Config, w: Watch, v: Watch, rows: seq<Row>, more: seq<Row>, own: Option<string>, i: nat,
                          stop: bool, raised: bool, begun: nat)
    requires i < |cfg.servers| && Onward(w, v) && Walked(cfg, w, rows, own, i)
    requires TurnTaken(cfg, w, v, cfg.servers[i], own, stop, raised, more, begun)
    ensures OnItsWay(cfg, v, rows + more, own)
  {
    BackedLater(cfg, w, v, rows);
    HostsInOrder(cfg, w, v, own, i, stop);
    GuestsOfTurn(cfg, w, v, own, i, begun);
    VisitsInReach(cfg, w, v, own, i);
  }

  lemma GuestsOfTurn(cfg: Config, w: Watch, v: Watch, own: Option<string>, i: nat, begun: nat)
    requires i < |cfg.servers| && GuestsInOrder(cfg, own, i, w.guests)
    requires begun <= |cfg.servers[i].guests| && (begun > 0 ==> Begins(cfg, cfg.servers[i], own))
    requires v.guests == w.guests + GuestNames(cfg.servers[i].guests[..begun])
    ensures GuestsInOrder(cfg, own, |cfg.servers|, v.guests)
  {
    GuestsSnoc(cfg, own, i, w.guests, begun);
    GuestsToTheEnd(cfg, own, i + 1, v.guests);
  }

  lemma VisitsInReach(cfg: Config, w: Watch, v: Watch, own: Option<string>, i: nat)
    requires i < |cfg.servers| && w.visited <= Reach(cfg, own, i)
    requires var s := cfg.servers[i];
             v.visited <= w.visited + if Begins(cfg, s, own) then {s.name} + GuestSet(s) else {}
    ensures v.visited <= Reach(cfg, own, |cfg.servers|)
  {
    ReachGrows(cfg, own, i + 1, |cfg.servers|);
  }

  lemma TurnKeepsRows(cfg: Config, w: Watch, v: Watch, rows: seq<Row>, more: seq<Row>, own: Option<string>, i: nat,
                      stop: bool, begun: nat)
    requires i < |cfg.servers| && Walked(cfg, w, rows, own, i)
    requires TurnTaken(cfg, w, v, cfg.servers[i], own, stop, false, more, begun)
    ensures HostsHaveRows(v, rows + more)
  {
    MachinesOfSum(rows, more);
  }

  lemma TurnKeepsWalk(cfg: Config, w: Watch, v: Watch, rows: seq<Row>, more: seq<Row>, own: Option<string>, i: nat,
                      begun: nat)
    requires i < |cfg.servers| && Onward(w, v) && Walked(cfg, w, rows, own, i)
    requires TurnTaken(cfg, w, v, cfg.servers[i], own, false, false, more, begun)
    ensures Walked(cfg, v, rows + more, own, i + 1)
  {
    BackedLater(cfg, w, v, rows);
    HostsInOrder(cfg, w, v, own, i, false);
    GuestsSnoc(cfg, own, i, w.guests, begun);
    TurnKeepsRows(cfg, w, v, rows, more, own, i, false, begun);
    ListedMore(cfg, w, v, rows, more, own, i, begun);
    if !v.stopped {
      HostsHandledMore(cfg, w, v, rows, more, own, i);
    }
  }

  lemma WalkedSoFar(cfg: Config, w: Watch, rows: seq<Row>, own: Option<string>, i: nat)
    requires i <= |cfg.servers| && Walked(cfg, w, rows, own, i)
    ensures OnItsWay(cfg, w, rows, own)
  {
    GuestsToTheEnd(cfg, own, i, w.guests);
    ReachGrows(cfg, own, i, |cfg.servers|);
  }

  /** The magic packet for some server could not be sent at all: that exception ends a run. */
  ghost predicate WasCut(cfg: Config, w: Watch) {
    exists s :: s in cfg.servers && RunCut(s.name) in w.answers
  }

  /** Timar's own host is one with compose projects that said so, and if there is none, every host with
      compose projects was asked, or did not answer; outside a container there is none. */
  ghost predicate OwnSought(cfg: Config, me: Option<string>, w: Watch, own: Option<string>) {
    match own
    case Some(n) =>
      && RunsHere(n) in w.answers && n in ServerMap(cfg.servers)
      && exists e :: e in cfg.projects && e.server == n
    case None =>
      || me.None?
      || forall e | e in cfg.projects && e.server in ServerMap(cfg.servers) :: RunsElsewhere(e.server) in w.answers
  }

  ghost predicate OwnHandled(cfg: Config, w: Watch, rows: seq<Row>, name: string) {
    name in ServerMap(cfg.servers) && OwnTried(cfg, w, rows, ServerMap(cfg.servers)[name])
  }

  /** The machines a complete report lists. */
  ghost predicate InReport(cfg: Config, w: Watch, rows: seq<Row>, own: Option<string>, n: string) {
    own == Some(n) || Listed(cfg, w, rows, own, |cfg.servers|, n)
  }

  /** What a run has done that was neither stopped nor cut by an exception. */
  ghost predicate SeenTo(cfg: Config, w: Watch, rows: seq<Row>, own: Option<string>) {
    && w.hosts == Walk(cfg, own, 0)
    && (forall s | s in cfg.servers && s.ssh && s.name !in ManagedNames(cfg.servers) :: HasRow(rows, s.name))
    && (forall s | s in cfg.servers && s.ssh && s.name !in ManagedNames(cfg.servers) && own != Some(s.name) &&
        s.window.None? :: HostHandled(cfg, w, rows, s, own))
    && (own.Some? ==> OwnHandled(cfg, w, rows, own.value))
    && (UniqueNames(cfg.servers) ==> forall n :: HasRow(rows, n) <==> InReport(cfg, w, rows, own, n))
  }

  lemma HostsWalked(cfg: Config, w: Watch, rows: seq<Row>, own: Option<string>, s: Server)
    requires Walked(cfg, w, rows, own, |cfg.servers|) && s in cfg.servers && !PassedOver(cfg, s, own)
    ensures HasRow(rows, s.name)
    ensures Begins(cfg, s, own) && !w.stopped ==> HostHandled(cfg, w, rows, s, own)
  {
    assert HostBefore(cfg, own, |cfg.servers|, s.name);
  }

  lemma SeenToWithoutOwn(cfg: Config, w: Watch, rows: seq<Row>)
    requires Walked(cfg, w, rows, None, |cfg.servers|) && !w.stopped
    ensures SeenTo(cfg, w, rows, None)
  {
    forall s | s in cfg.servers && !PassedOver(cfg, s, None)
      ensures HasRow(rows, s.name)
      ensures Begins(cfg, s, None) ==> HostHandled(cfg, w, rows, s, None)
    {
      HostsWalked(cfg, w, rows, None, s);
    }
  }

  /** The own host's rows come last, and are about no other machine. */
  lemma OwnRowsAdded(cfg: Config, w: Watch, v: Watch, done: seq<Row>, more: seq<Row>, name: string, n: string)
    requires v.guests == w.guests && MachinesIn(more) == {name}
    ensures InReport(cfg, v, done + more, Some(name), n) <==> InReport(cfg, w, done, Some(name), n)
    ensures HasRow(done + more, n) <==> HasRow(done, n) || n == name
  {
    MachinesOfSum(done, more);
    forall k | 0 <= k < |cfg.servers| && Begins(cfg, cfg.servers[k], Some(name))
      ensures OutOfRun(done + more, cfg.servers[k].name) <==> OutOfRun(done, cfg.servers[k].name)
    {
      OutOfSum(done, more, cfg.servers[k].name);
    }
  }

  lemma OwnReported(cfg: Config, w: Watch, v: Watch, done: seq<Row>, more: seq<Row>, name: string, n: string)
    requires UniqueNames(cfg.servers) && ListedSoFar(cfg, w, done, Some(name), |cfg.servers|)
    requires v.guests == w.guests && MachinesIn(more) == {name}
    ensures HasRow(done + more, n) <==> InReport(cfg, v, done + more, Some(name), n)
  {
    OwnRowsAdded(cfg, w, v, done, more, name, n);
  }

  lemma HostsSeenTo(cfg: Config, w: Watch, v: Watch, done: seq<Row>, more: seq<Row>, name: string, s: Server)
    requires Walked(cfg, w, done, Some(name), |cfg.servers|) && !w.stopped && Onward(w, v) && MachinesIn(more) == {name}
    requires s in cfg.servers && s.ssh && s.name !in ManagedNames(cfg.servers)
    ensures HasRow(done + more, s.name)
    ensures Begins(cfg, s, Some(name)) ==> HostHandled(cfg, v, done + more, s, Some(name))
  {
    MachinesOfSum(done, more);
    if s.name != name {
      HostsWalked(cfg, w, done, Some(name), s);
      if Begins(cfg, s, Some(name)) {
        HostHandledLater(cfg, w, v, done, more, s, Some(name));
      }
    }
  }

  lemma SeenToWithOwn(cfg: Config, w: Watch, v: Watch, done: seq<Row>, more: seq<Row>, name: string)
    requires Walked(cfg, w, done, Some(name), |cfg.servers|) && !w.stopped && Onward(w, v)
    requires v.hosts == w.hosts + [name] && v.guests == w.guests && MachinesIn(more) == {name}
    requires OwnHandled(cfg, v, more, name)
    ensures SeenTo(cfg, v, done + more, Some(name))
  {
    forall s | s in cfg.servers && s.ssh && s.name !in ManagedNames(cfg.servers)
      ensures HasRow(done + more, s.name)
      ensures Begins(cfg, s, Some(name)) ==> HostHandled(cfg, v, done + more, s, Some(name))
    {
      HostsSeenTo(cfg, w, v, done, more, name, s);
    }
    OwnTriedInSum(cfg, v, done, more, ServerMap(cfg.servers)[name]);
    forall n | UniqueNames(cfg.servers)
      ensures HasRow(done + more, n) <==> InReport(cfg, v, done + more, Some(name), n)
    {
      OwnReported(cfg, w, v, done, more, name, n);
    }
  }

  /** A guest of none but timar's own host, watched-only hosts and hosts with a window of their own is
      not in the report. */
  lemma NotInReport(cfg: Config, w: Watch, rows: seq<Row>, own: Option<string>, n: string)
    requires GuestsInOrder(cfg, own, |cfg.servers|, w.guests)
    requires n in ManagedNames(cfg.servers) && own != Some(n)
    requires forall s | s in cfg.servers && n in GuestSet(s) :: !Begins(cfg, s, own)
    ensures !InReport(cfg, w, rows, own, n)
  {
    if n in w.guests {
      GuestsCameBefore(cfg, own, |cfg.servers|, w.guests, n);
    }
  }

  class Run {
    const cfg: Config
    const world: World
    const enrolledBefore: set<Address>
    var enrolled: set<Address>
    var stopRequested: bool
    var log: seq<Event>
    var handoff: Option<Handoff>
    ghost var watch: Watch

    ghost predicate Valid()
      reads this
    {
      && Replay(cfg, enrolledBefore, log) == Some(watch)
      && Honest(world, log)
      && stopRequested == watch.stopped
      && enrolled == watch.enrolled
    }

    constructor (cfg: Config, enrolled: set<Address>, world: World)
      ensures Valid() && log == [] && handoff.None?
      ensures this.cfg == cfg && enrolledBefore == enrolled && watch == Init(enrolled) && this.world == world
    {
      this.cfg := cfg;
      this.world := world;
      this.enrolledBefore := enrolled;
      this.enrolled := enrolled;
      stopRequested := false;
      log := [];
      handoff := None;
      watch := Init(enrolled);
    }

    // -- single actions ------------------------------------------------------

    method Emit(e: Event)
      requires Valid() && e in Possible(cfg, world, log, watch)
      modifies this`log, this`watch, this`stopRequested, this`enrolled
      ensures Valid() && log == old(log) + [e] && watch == Next(old(watch), e)
    {
      ReplaySnoc(cfg, enrolledBefore, log, e);
      HonestSnoc(world, log, e);
      NextFlags(watch, e);
      log := log + [e];
      watch := Next(watch, e);
      if e.StopRequested? {
        stopRequested := true;
      } else if e.LoggedIn? || e.EnrolledElsewhere? {
        enrolled := enrolled + {e.address};
      }
    }

    /** Other threads get their turn. */
    method Settle()
      requires Valid()
      modifies this`log, this`watch, this`stopRequested, this`enrolled
      ensures Valid() && Meanwhile(old(watch), watch) && |log| >= |old(log)|
    {
      var turns: nat :| true;
      for i := 0 to turns
        invariant Valid() && Meanwhile(old(watch), watch) && |log| >= |old(log)|
      {
        if |log| in world.stops {
          Emit(StopRequested);
        } else if |log| in world.logins {
          Emit(EnrolledElsewhere(world.logins[|log|]));
        }
      }
    }

    /** `cancel.requested`, at the boundary before `step`: the step begins unless a stop is seen. */
    method CheckStop(step: Event) returns (stop: bool)
      requires Valid() && watch.handedOff.None?
      requires step.HostBegun? || step.GuestBegun? || step.ProjectBegun?
      requires step.HostBegun? ==> AsFound(watch)
      modifies this`log, this`watch, this`stopRequested, this`enrolled
      ensures Valid()
      ensures stop ==> watch.stopped && Settled(old(watch), watch)
      ensures !stop ==> !watch.stopped && Settled(Next(old(watch), step), watch)
    {
      Settle();
      stop := stopRequested;
      if !stop {
        Emit(step);
      }
    }

    /** A question, and the world's reply to it. */
    method Ask(q: Question) returns (r: Reply)
      requires Valid() && MayAsk(cfg, watch, q)
      modifies this`log, this`watch, this`stopRequested, this`enrolled
      ensures Valid() && |log| > |old(log)| && log[|log| - 1] == Replied(q, r)
      ensures Meanwhile(AfterReply(old(watch), q, r), watch)
    {
      Settle();
      Emit(Asked(q));
      r := world.ReplyAt(|log|);
      Emit(Replied(q, r));
    }

    /** The reply was an exception: the end of the machine's step. */
    method Raise(n: string)
      requires Valid() && watch.handedOff.None? && CanBeAsked(watch, n)
      requires watch.line.Heard? && Fails(watch.line.q, watch.line.r, Machine(n), true)
      modifies this`log, this`watch, this`stopRequested, this`enrolled
      ensures Valid() && Settled(Cut(old(watch), n), watch) && CutShort(watch, n) && watch.line == old(watch.line)
      ensures BeforeUpdate(watch.line.q.what) ==> KeptFrom(n) in watch.answers
      ensures watch.line.q.what.Packet? ==> RunCut(n) in watch.answers
    {
      Emit(Trouble(Machine(n), true));
    }

    /** The reply was a failure that is reported, and the step goes on. */
    method Blame(m: Subject)
      requires Valid() && watch.handedOff.None? && CanBeAsked(watch, MachineOf(m))
      requires watch.line.Heard? && Fails(watch.line.q, watch.line.r, m, false)
      modifies this`log, this`watch, this`stopRequested, this`enrolled
      ensures Valid() && Settled(old(watch), watch) && FailedOn(m) in watch.answers
      ensures BeforeUpdate(old(watch).line.q.what) ==> KeptFrom(MachineOf(m)) in watch.answers
    {
      Emit(Trouble(m, false));
    }

    /** A call inside a `try` around the machine's step. It can raise (a timeout, a lost connection). */
    method Remote(q: Question) returns (r: Reply)
      requires Valid() && watch.handedOff.None? && MayAsk(cfg, watch, q) && EndsStep(q.what) && !q.what.Login?
      requires CanBeAsked(watch, MachineOf(q.about))
      modifies this`log, this`watch, this`stopRequested, this`enrolled
      ensures Valid() && watch.line == Heard(q, r)
      ensures r.Reply? ==> Meanwhile(AfterReply(old(watch), q, r), watch)
      ensures WasTold(q) in watch.answers
      ensures r.Raised? ==> Settled(Cut(old(watch), MachineOf(q.about)), watch) && CutShort(watch, MachineOf(q.about))
      ensures r.Raised? && BeforeUpdate(q.what) ==> KeptFrom(MachineOf(q.about)) in watch.answers
      ensures r.Raised? && q.what.Packet? ==> RunCut(MachineOf(q.about)) in watch.answers
    {
      r := Ask(q);
      if r.Raised? {
        Raise(MachineOf(q.about));
      }
    }

    /** `is_host_up` */
    method IsHostUp(name: string) returns (up: bool)
      requires Valid() && watch.handedOff.None? && MayProbe(cfg, watch, name)
      modifies this`log, this`watch, this`stopRequested, this`enrolled
      ensures Valid() && Settled(Next(old(watch), Probed(name, up)), watch)
      ensures if up then ToldYes(watch, Machine(name), Probe) else ToldNo(watch, Machine(name), Probe)
      ensures log != [] && log[|log| - 1] == Probed(name, up)
    {
      var r := Ask(Question(Machine(name), Probe));
      up := Good(r);
      Emit(Probed(name, up));
    }

    /** An SSH connection; a key login is recorded as an enrolment. */
    method Connect(s: Server, q: Question) returns (ok: bool)
      requires Valid() && MayAsk(cfg, watch, q) && (q.what.Login? || q.what.HostLogin?)
      modifies this`log, this`watch, this`stopRequested, this`enrolled
      ensures Valid() && Settled(old(watch), watch)
      ensures ok ==> s.address in watch.enrolled
      ensures !ok ==> ToldNo(watch, q.about, q.what)
      ensures !ok && q.what.Login? ==> log != [] && NotYet(world, log[|log| - 1])
      ensures |log| > |old(log)|
    {
      var r := Ask(q);
      ok := Good(r);
      if ok {
        Emit(LoggedIn(s.address));
      }
    }

    /** One whose failure is not caught before the end of the machine's step. */
    method ConnectOrRaise(s: Server, n: string, what: Call) returns (ok: bool)
      requires Valid() && watch.handedOff.None? && CanBeAsked(watch, n) && n !in watch.restarts
      requires if what.Login? then InReach(watch, n) else what.HostLogin? && n in ManagedNames(cfg.servers)
      modifies this`log, this`watch, this`stopRequested, this`enrolled
      ensures Valid() && Settled(old(watch), watch)
      ensures ok ==> s.address in watch.enrolled
      ensures !ok ==> CutShort(watch, n) && KeptFrom(n) in watch.answers
    {
      ok := Connect(s, Question(Machine(n), what));
      if !ok {
        Raise(n);
      }
    }

    /** Send the magic packet. `raised` is an exception other than `WolError`. */
    method SendPacket(s: Server) returns (raised: bool, sent: bool)
      requires Valid() && watch.handedOff.None? && MayCall(cfg, watch, s) && !OffByChoice(s)
      requires s.name in watch.visited && s.name !in watch.restarts
      modifies this`log, this`watch, this`stopRequested, this`enrolled
      ensures Valid() && !(raised && sent) && Settled(Next(old(watch), PacketSent(s)), watch)
      ensures raised ==> RunCut(s.name) in watch.answers
      ensures !raised && !sent ==> ToldNo(watch, Machine(s.name), Packet)
    {
      Settle();
      Emit(PacketSent(s));
      var r := Remote(Question(Machine(s.name), Packet));
      raised, sent := r.Raised?, Good(r);
    }

    /** `wait_for_host` */
    method Await(name: string) returns (up: bool)
      requires Valid() && watch.handedOff.None? && CanBeAsked(watch, name)
      requires Called(name) in watch.deeds
      modifies this`log, this`watch, this`stopRequested, this`enrolled
      ensures Valid() && Settled(old(watch), watch)
      ensures if up then ToldYes(watch, Machine(name), Wait) else ToldNo(watch, Machine(name), Wait)
    {
      var r := Ask(Question(Machine(name), Wait));
      up := Good(r);
    }

    /** A machine that was called did not come up. */
    method GiveUpOn(name: string)
      requires Valid() && watch.handedOff.None? && IsIn(watch, name, Off) && Called(name) in watch.deeds
      requires ToldNo(watch, Machine(name), Wait) || ToldNo(watch, Machine(name), Packet)
      modifies this`log, this`watch, this`stopRequested, this`enrolled
      ensures Valid() && Settled(old(watch), watch)
      ensures FailedOn(Machine(name)) in watch.answers && NoAnswer(name) in watch.answers
    {
      Emit(GaveUp(name));
    }

    /** The wait for a machine that was called, and how it ends. */
    method ComeUpOrNot(name: string, on: Option<string>) returns (up: bool)
      requires Valid() && watch.handedOff.None? && MayComeUp(cfg, watch, name) && HostIsUp(watch, name, on)
      requires CanBeAsked(watch, name)
      modifies this`log, this`watch, this`stopRequested, this`enrolled
      ensures Valid() && Settled(if up then Next(old(watch), CameUp(name, on)) else old(watch), watch)
      ensures !up ==> FailedOn(Machine(name)) in watch.answers && NoAnswer(name) in watch.answers
    {
      up := Await(name);
      if up {
        Emit(CameUp(name, on));
      } else {
        GiveUpOn(name);
      }
    }

    /** Send the magic packet and wait. */
    method WakeAndWait(s: Server) returns (raised: bool, up: bool)
      requires Valid() && watch.handedOff.None? && MayCall(cfg, watch, s) && !OffByChoice(s)
      requires (Orderly(cfg.servers) ==> s.name !in watch.cameUp) && s.name in watch.visited
      requires s.name !in watch.restarts
      modifies this`log, this`watch, this`stopRequested, this`enrolled
      ensures Valid() && !(raised && up)
      ensures var called := Next(old(watch), PacketSent(s));
              Settled(if up then Next(called, CameUp(s.name, None)) else called, watch)
      ensures !up && !raised ==> FailedOn(Machine(s.name)) in watch.answers && NoAnswer(s.name) in watch.answers
      ensures raised ==> RunCut(s.name) in watch.answers
    {
      var sent;
      raised, sent := SendPacket(s);
      up := false;
      CalledAndWaiting(cfg, old(watch), watch, PacketSent(s), s.name);
      if sent {
        up := ComeUpOrNot(s.name, None);
      } else if !raised {
        GiveUpOn(s.name);
      }
    }

    /** Connect, and switch the machine off; `s` is itself or its hypervisor. A failure is only logged. */
    method SwitchOff(s: Server, name: string)
      requires Valid() && watch.handedOff.None? && Awake(watch, name) && NoGuestAwakeOn(watch, name)
      requires name in watch.visited
      modifies this`log, this`watch, this`stopRequested, this`enrolled
      ensures Valid() && Settled(Next(old(watch), ShutDown(name)), watch)
    {
      var ok := Connect(s, Question(Machine(name), Login));
      if ok {
        PowerItOff(name);
      }
      Emit(ShutDown(name));
    }

    method PowerItOff(name: string)
      requires Valid() && watch.handedOff.None? && InReach(watch, name)
      modifies this`log, this`watch, this`stopRequested, this`enrolled
      ensures Valid() && Settled(old(watch), watch) && Told(watch, Machine(name), PowerOff)
    {
      var r := Ask(Question(Machine(name), PowerOff));
    }

    // -- one machine ---------------------------------------------------------

    method BeginVisit(name: string)
      requires Valid() && watch.handedOff.None? && (Orderly(cfg.servers) ==> name !in watch.visited)
      modifies this`log, this`watch, this`stopRequested, this`enrolled
      ensures Valid()
      ensures watch ==
              old(watch).(visited := old(watch).visited + {name}, taken := old(watch).taken - {name}, line := Quiet)
    {
      Emit(Visited(name));
    }

    /** The update command of a machine that is up and free. */
    method RunCommand(s: Server) returns (r: Reply)
      requires Valid() && watch.handedOff.None? && Ready(cfg, watch, s)
      requires s.name !in watch.restarts
      modifies this`log, this`watch, this`stopRequested, this`enrolled
      ensures Valid() && AtWork(old(watch), watch) && watch.restarts == old(watch.restarts)
      ensures Attempted(s.name) in watch.deeds
      ensures if Good(r) then Worked(Machine(s.name)) in watch.deeds else FailedOn(Machine(s.name)) in watch.answers
      ensures r.Raised? ==> CutShort(watch, s.name)
    {
      r := Remote(Question(Machine(s.name), UpdateCommand));
      NoteUpdate(s, Good(r));
    }

    method NoteUpdate(s: Server, ok: bool)
      requires Valid() && watch.handedOff.None? && Ready(cfg, watch, s)
      requires Told(watch, Machine(s.name), UpdateCommand) && (ok <==> Good(watch.line.r))
      modifies this`log, this`watch, this`stopRequested, this`enrolled
      ensures Valid() && watch == old(watch).(deeds := watch.deeds, answers := watch.answers)
      ensures old(watch).deeds <= watch.deeds && old(watch).answers <= watch.answers
      ensures Attempted(s.name) in watch.deeds
      ensures if ok then Worked(Machine(s.name)) in watch.deeds else FailedOn(Machine(s.name)) in watch.answers
    {
      Emit(Updated(s, ok));
    }

    /** `_update_containers`: the compose projects of a host that is up, one row each. */
    method UpdateContainers(s: Server, entries: seq<Project>) returns (raised: bool, rows: seq<Row>)
      requires Valid() && watch.handedOff.None? && Member(cfg, watch.enrolled, s) && InReach(watch, s.name)
      requires forall e | e in entries :: e in cfg.projects && e.server == s.name
      modifies this`log, this`watch, this`stopRequested, this`enrolled
      ensures Valid() && AtWork(old(watch), watch)
      ensures watch.restarts == if raised then old(watch.restarts) - {s.name} else old(watch.restarts)
      ensures raised ==> CutShort(watch, s.name) && rows == []
      ensures AllBacked(cfg, watch, rows)
      ensures MachinesIn(rows) == {}
      ensures !raised && !watch.stopped ==>
                (|rows| == 1 && rows[0] == Failed(DockerOn(s.name), true, rows[0].error)) ||
                (|rows| == |entries| && ProjectsAt(rows, entries, s.name, 0))
    {
      raised, rows := false, [];
      if entries == [] {
        return;
      }
      var listing := Remote(Question(DockerOn(s.name), ListContainers));
      if listing.Raised? {
        return true, [];
      }
      if listing.code != 0 {
        var row := BlameDocker(s, listing.err);
        return false, [row];
      }
      rows := UpdateThenPrune(s, entries);
    }

    /** The containers could not be listed. */
    method BlameDocker(s: Server, error: string) returns (row: Row)
      requires Valid() && watch.handedOff.None? && CanBeAsked(watch, s.name)
      requires ToldNo(watch, DockerOn(s.name), ListContainers) && watch.line.r.Reply?
      modifies this`log, this`watch, this`stopRequested, this`enrolled
      ensures Valid() && Settled(old(watch), watch)
      ensures row == Failed(DockerOn(s.name), true, Text(error)) && row in BackedRows(cfg, watch)
    {
      Blame(DockerOn(s.name));
      row := Failed(DockerOn(s.name), true, Text(error));
      FailedIsBacked(cfg, watch, DockerOn(s.name), true, Text(error));
    }

    /** The projects, and the images they no longer use; a failure of that is only logged. */
    method UpdateThenPrune(s: Server, entries: seq<Project>) returns (rows: seq<Row>)
      requires Valid() && watch.handedOff.None? && Member(cfg, watch.enrolled, s) && InReach(watch, s.name)
      requires forall e | e in entries :: e in cfg.projects && e.server == s.name
      modifies this`log, this`watch, this`stopRequested, this`enrolled
      ensures Valid() && AtWork(old(watch), watch) && watch.restarts == old(watch.restarts)
      ensures AllBacked(cfg, watch, rows)
      ensures |rows| <= |entries| && (|rows| == |entries| || watch.stopped)
      ensures forall i | 0 <= i < |rows| :: rows[i].subject == ComposeProject(entries[i].name, s.name)
    {
      rows := UpdateEntries(s, entries);
      label before:
      var prune := Ask(Question(DockerOn(s.name), Prune));
      BackedLater(cfg, old@before(watch), watch, rows);
    }

    /** The loop of `_update_containers`. */
    method UpdateEntries(s: Server, entries: seq<Project>) returns (rows: seq<Row>)
      requires Valid() && watch.handedOff.None? && Member(cfg, watch.enrolled, s) && InReach(watch, s.name)
      requires forall e | e in entries :: e in cfg.projects && e.server == s.name
      modifies this`log, this`watch, this`stopRequested, this`enrolled
      ensures Valid() && AtWork(old(watch), watch) && watch.restarts == old(watch.restarts)
      ensures AllBacked(cfg, watch, rows)
      ensures |rows| <= |entries| && (|rows| == |entries| || watch.stopped)
      ensures forall i | 0 <= i < |rows| :: rows[i].subject == ComposeProject(entries[i].name, s.name)
    {
      rows := [];
      var i := 0;
      while i < |entries|
        invariant 0 <= i <= |entries| && |rows| == i
        invariant Valid() && AtWork(old(watch), watch) && watch.restarts == old(watch.restarts)
        invariant AllBacked(cfg, watch, rows)
        invariant forall k | 0 <= k < i :: rows[k].subject == ComposeProject(entries[k].name, s.name)
      {
        var stop, row := NextProject(s, entries[i], rows);
        if stop {
          return;
        }
        rows := rows + [row];
        i := i + 1;
      }
    }

    /** One project more, unless a stop is seen before it. */
    method NextProject(s: Server, entry: Project, ghost rows: seq<Row>) returns (stop: bool, row: Row)
      requires Valid() && watch.handedOff.None? && Member(cfg, watch.enrolled, s) && InReach(watch, s.name)
      requires entry in cfg.projects && entry.server == s.name && AllBacked(cfg, watch, rows)
      modifies this`log, this`watch, this`stopRequested, this`enrolled
      ensures Valid() && AtWork(old(watch), watch) && watch.restarts == old(watch.restarts)
      ensures AllBacked(cfg, watch, rows) && (stop ==> watch.stopped)
      ensures !stop ==> row in BackedRows(cfg, watch) && row.subject == ComposeProject(entry.name, s.name)
    {
      stop := CheckStop(ProjectBegun(entry.name, s.name));
      row := Failed(ComposeProject(entry.name, s.name), true, NoDetail);
      if !stop {
        row := UpdateProject(s, entry);
      }
      BackedLater(cfg, old(watch), watch, rows);
    }

    /** One entry of the loop in `_update_containers`. Timar's own project, by the container listing, and
        those left out have a row that says so, and no command. */
    method UpdateProject(s: Server, entry: Project) returns (row: Row)
      requires Valid() && watch.handedOff.None? && Member(cfg, watch.enrolled, s) && InReach(watch, s.name)
      requires entry in cfg.projects && entry.server == s.name
      modifies this`log, this`watch, this`stopRequested, this`enrolled
      ensures Valid() && AtWork(old(watch), watch) && watch.restarts == old(watch.restarts)
      ensures row.subject == ComposeProject(entry.name, s.name) && row in BackedRows(cfg, watch)
      ensures row.skipped <==> entry.mode.Skip? || ComposeProject(entry.name, s.name) in world.timarIn
    {
      var subject := ComposeProject(entry.name, s.name);
      if subject in world.timarIn {
        Emit(TimarSeen(entry.name, s.name));
        SkippedIsBacked(cfg, watch, subject, true, IsTimar);
        return Skipped(subject, true, IsTimar);
      }
      if entry.mode.Skip? {
        SkippedIsBacked(cfg, watch, subject, true, SkippedByChoice);
        return Skipped(subject, true, SkippedByChoice);
      }
      var running: bool := *;
      var r := RunCompose(s, entry);
      var note := if running || entry.mode.Custom? then "" else "pulled, left stopped";
      DoneIsBacked(cfg, watch, subject, Good(r), true, if r.Raised? then r.message else r.err, note);
      row := Done(subject, Good(r), true, if r.Raised? then r.message else r.err, note);
    }

    /** The update command of one project. An exception is a failure like any other. */
    method RunCompose(s: Server, entry: Project) returns (r: Reply)
      requires Valid() && watch.handedOff.None? && Member(cfg, watch.enrolled, s) && InReach(watch, s.name)
      requires entry in cfg.projects && entry.server == s.name && !entry.mode.Skip?
      requires ComposeProject(entry.name, s.name) !in world.timarIn
      modifies this`log, this`watch, this`stopRequested, this`enrolled
      ensures Valid() && AtWork(old(watch), watch) && watch.restarts == old(watch.restarts)
      ensures var m := ComposeProject(entry.name, s.name);
              if Good(r) then Worked(m) in watch.deeds else FailedOn(m) in watch.answers
    {
      NotSeenThere(entry.name, s.name);
      assert IsWanted(cfg, watch, ComposeProject(entry.name, s.name));
      r := Ask(Question(ComposeProject(entry.name, s.name), Compose));
      NoteCompose(s, entry.name, Good(r));
    }

    method NoteCompose(s: Server, project: string, ok: bool)
      requires Valid() && watch.handedOff.None? && Member(cfg, watch.enrolled, s) && InReach(watch, s.name)
      requires Told(watch, ComposeProject(project, s.name), Compose) && (ok <==> Good(watch.line.r))
      modifies this`log, this`watch, this`stopRequested, this`enrolled
      ensures Valid() && AtWork(old(watch), watch) && watch.restarts == old(watch.restarts)
      ensures var m := ComposeProject(project, s.name);
              if ok then Worked(m) in watch.deeds else FailedOn(m) in watch.answers
    {
      Emit(ProjectUpdated(project, s, ok));
    }

    lemma NotSeenThere(project: string, host: string)
      requires Valid() && ComposeProject(project, host) !in world.timarIn
      ensures TimarIn(ComposeProject(project, host)) !in watch.answers
    {
      EndState(cfg, enrolledBefore, log);
      if TimarIn(ComposeProject(project, host)) in watch.answers {
        var k := AnswerByEvent(enrolledBefore, log, TimarIn(ComposeProject(project, host)), |log|);
        HonestAt(world, log, k);
      }
    }

    /** The opening of the `try` block of `update_server`: connect, and ask whether the machine is
        in use where the platform can say so. `user` is the answer, "" when it is free. */
    method OpenHost(s: Server) returns (raised: bool, user: string)
      requires Valid() && watch.handedOff.None? && InReach(watch, s.name)
      requires s.name !in watch.taken && s.name !in watch.restarts
      modifies this`log, this`watch, this`stopRequested, this`enrolled
      ensures Valid()
      ensures user == "" ==> Settled(old(watch), watch)
      ensures user != "" ==>
                && !raised && s.platform.AsksBeforeUpdating() && Busy(s.name) in watch.answers
                && Settled(old(watch).(taken := old(watch).taken + {s.name}), watch)
      ensures raised ==> CutShort(watch, s.name) && KeptFrom(s.name) in watch.answers
      ensures !raised && s.platform.Windows? ==> WasAsked(watch, s.name, BusyCheck)
    {
      raised, user := false, "";
      var ok := ConnectOrRaise(s, s.name, Login);
      if !ok {
        return true, "";
      }
      Learn(s.name);
      if s.platform.AsksBeforeUpdating() {
        raised, user := AskWhoIsThere(s.name);
      }
    }

    /** `osinfo.note`: which system it is. It never raises. */
    method Learn(name: string)
      requires Valid() && watch.handedOff.None? && InReach(watch, name)
      modifies this`log, this`watch, this`stopRequested, this`enrolled
      ensures Valid() && Settled(old(watch), watch)
    {
      var r := Ask(Question(Machine(name), Identify));
    }

    method AskWhoIsThere(name: string) returns (raised: bool, user: string)
      requires Valid() && watch.handedOff.None? && InReach(watch, name) && name !in watch.restarts
      modifies this`log, this`watch, this`stopRequested, this`enrolled
      ensures Valid()
      ensures user == "" ==> Settled(old(watch), watch)
      ensures user != "" ==>
                && !raised && Busy(name) in watch.answers
                && Settled(old(watch).(taken := old(watch).taken + {name}), watch)
      ensures raised ==> CutShort(watch, name) && KeptFrom(name) in watch.answers
      ensures WasAsked(watch, name, BusyCheck)
    {
      user := "";
      var r := Remote(Question(Machine(name), BusyCheck));
      raised := r.Raised?;
      if r.Reply? && r.out != "" {
        user := r.out;
        Emit(UserSeen(name, user));
      }
    }

    /** The update command itself, and whether the platform then asks for a restart. No row when
        it raised: the `except` clause writes that one. */
    method RunUpdateCommand(s: Server, wasRunning: bool) returns (raised: bool, row: Row, restart: bool)
      requires Valid() && watch.handedOff.None? && Ready(cfg, watch, s) && watch.restarts == {}
      requires CameBy(watch, s.name, wasRunning)
      modifies this`log, this`watch, this`stopRequested, this`enrolled
      ensures Valid() && AtWork(old(watch), watch) && watch.restarts == (if restart then {s.name} else {})
      ensures Attempted(s.name) in watch.deeds
      ensures !raised ==> row in BackedRows(cfg, watch)
      ensures row.subject == Machine(s.name) && !OutReason(row.error)
      ensures raised ==> CutShort(watch, s.name)
      ensures row.wasRunning == wasRunning && !row.skipped
      ensures restart ==> !raised && s.platform.IsRestarted()
      ensures !raised && s.platform.Windows? ==> WasAsked(watch, s.name, RestartCheck)
    {
      var r := RunCommand(s);
      raised, restart := r.Raised?, false;
      var note: string := *;
      label ran:
      if !raised && s.platform.IsRestarted() {
        var asked := Remote(Question(Machine(s.name), RestartCheck));
        raised := asked.Raised?;
        restart := asked.Reply? && asked.out == "restart";
        if asked.Reply? && asked.out == "signed-in" {
          note := JoinNotes(note, "restart pending");
        }
      }
      var error := if r.Reply? then r.err else r.message;
      DoneIsBacked(cfg, watch, Machine(s.name), Good(r), wasRunning, error, note);
      row := Done(Machine(s.name), Good(r), wasRunning, error, note);
    }

    /** The rest of the `try` block of `update_server`: update a host that is up, then its
        projects. `restart` is what the platform's restart check said. */
    method UpdateHost(s: Server, wasRunning: bool, entries: seq<Project>)
        returns (raised: bool, rows: seq<Row>, restart: bool)
      requires Valid() && watch.handedOff.None? && Ready(cfg, watch, s) && watch.restarts == {}
      requires CameBy(watch, s.name, wasRunning) && s in cfg.servers
      requires entries == ProjectsOf(cfg, s.name)
      modifies this`log, this`watch, this`stopRequested, this`enrolled
      ensures Valid() && AtWork(old(watch).(taken := watch.taken), watch)
      ensures watch.restarts == if restart then {s.name} else {}
      ensures AllBacked(cfg, watch, rows)
      ensures raised ==> CutShort(watch, s.name) && !restart
      ensures !raised ==> rows != []
      ensures rows != [] ==> rows[0].subject == Machine(s.name) && rows[0].wasRunning == wasRunning
      ensures OwnRowsOnly(rows, s.name) && Handled(cfg, watch, rows, s)
      ensures restart ==> rows != [] && !rows[0].skipped && s.platform.IsRestarted()
    {
      rows, restart := [], false;
      var user;
      raised, user := OpenHost(s);
      if raised {
        return;
      }
      if user != "" {
        SkippedIsBacked(cfg, watch, Machine(s.name), wasRunning, InUse(user));
        rows := [Skipped(Machine(s.name), wasRunning, InUse(user))];
        OneRow(rows[0]);
        return;
      }
      raised, rows, restart := UpdateFreeHost(s, wasRunning, entries);
    }

    /** Nobody is at it: the command, then the projects. */
    method UpdateFreeHost(s: Server, wasRunning: bool, entries: seq<Project>)
        returns (raised: bool, rows: seq<Row>, restart: bool)
      requires Valid() && watch.handedOff.None? && Ready(cfg, watch, s) && watch.restarts == {}
      requires CameBy(watch, s.name, wasRunning) && entries == ProjectsOf(cfg, s.name)
      modifies this`log, this`watch, this`stopRequested, this`enrolled
      ensures Valid() && AtWork(old(watch), watch) && watch.restarts == (if restart then {s.name} else {})
      ensures AllBacked(cfg, watch, rows)
      ensures raised ==> CutShort(watch, s.name) && !restart
      ensures !raised ==> rows != []
      ensures rows != [] ==> rows[0].subject == Machine(s.name) && rows[0].wasRunning == wasRunning && !rows[0].skipped
      ensures OwnRowsOnly(rows, s.name) && Tried(cfg, watch, rows, s.name) && Attempted(s.name) in watch.deeds
      ensures s.platform.Windows? ==> RaisedOn(s.name) in watch.answers || WasAsked(watch, s.name, RestartCheck)
      ensures restart ==> s.platform.IsRestarted()
    {
      rows := [];
      var row;
      raised, row, restart := RunUpdateCommand(s, wasRunning);
      if raised {
        return;
      }
      label before:
      var moreRows;
      raised, moreRows := UpdateContainers(s, entries);
      BackedLater(cfg, old@before(watch), watch, [row]);
      ThenProjects(cfg, watch, row, moreRows, s.name, raised);
      rows := [row] + moreRows;
      restart := restart && !raised;
    }

    /** `_restart`: restart the machine, and wait for it. */
    method Restart(s: Server) returns (back: bool)
      requires Valid() && watch.handedOff.None? && InReach(watch, s.name)
      requires watch.restarts == {s.name} && s.platform.IsRestarted()
      modifies this`log, this`watch, this`stopRequested, this`enrolled
      ensures Valid() && AtWork(old(watch), watch) && watch.restarts == {} && Rebooted(s.name) in watch.deeds
      ensures !back ==> FailedOn(Machine(s.name)) in watch.answers
    {
      Emit(Restarted(s));
      assert watch.restarts == {};
      back := AwaitBack(s.name);
    }

    method AwaitBack(name: string) returns (back: bool)
      requires Valid() && watch.handedOff.None? && InReach(watch, name)
      modifies this`log, this`watch, this`stopRequested, this`enrolled
      ensures Valid() && Settled(old(watch), watch)
      ensures !back ==> FailedOn(Machine(name)) in watch.answers
    {
      var r := Ask(Question(Machine(name), WaitBack));
      back := Good(r);
      if !back {
        Blame(Machine(name));
      }
    }

    /** The restart a Windows update asks for: `results[0]` is amended in place. */
    method RestartIfAsked(s: Server, restart: bool, rows: seq<Row>) returns (amended: seq<Row>)
      requires Valid() && watch.handedOff.None? && InReach(watch, s.name)
      requires watch.restarts == if restart then {s.name} else {}
      requires rows != [] && rows[0].subject == Machine(s.name) && AllBacked(cfg, watch, rows)
      requires restart ==> !rows[0].skipped && s.platform.IsRestarted()
      modifies this`log, this`watch, this`stopRequested, this`enrolled
      ensures Valid() && AtWork(old(watch), watch) && watch.restarts == {}
      ensures AllBacked(cfg, watch, amended)
      ensures |amended| == |rows| && amended[1..] == rows[1..]
      ensures amended[0] == rows[0].(success := amended[0].success, error := amended[0].error, note := amended[0].note)
      ensures amended[0].error == rows[0].error || amended[0].error.NotBackFromRestart?
      ensures !restart ==> amended == rows
      ensures restart ==>
                && Rebooted(s.name) in watch.deeds
                && (amended[0].error.NotBackFromRestart? || amended[0].success == rows[0].success)
    {
      if !restart {
        return rows;
      }
      var back := Restart(s);
      var first := if back then rows[0].(note := JoinNotes(rows[0].note, "restarted"))
                   else rows[0].(success := false, error := NotBackFromRestart);
      amended := [first] + rows[1..];
      BackedLater(cfg, old(watch), watch, rows);
      assert rows[0] in rows && forall r | r in rows[1..] :: r in rows;
    }

    // -- the guests of a host ------------------------------------------------

    /** `qm start` and the wait for the guest. Its row when it did not come up: a guest that never
        answered is not shut down again. */
    method StartGuest(s: Server, g: Server) returns (up: bool, rows: seq<Row>)
      requires Valid() && watch.handedOff.None? && g.name != s.name && watch.restarts == {}
      requires MayCall(cfg, watch, g) && IsUp(watch, s.name) && g.name in watch.visited
      requires Orderly(cfg.servers) ==> g.name !in watch.cameUp
      requires g.name in ManagedNames(cfg.servers)
      modifies this`log, this`watch, this`stopRequested, this`enrolled
      ensures Valid()
      ensures AtWork(old(watch).(phases := watch.phases), watch) && watch.restarts == {}
      ensures watch.phases == if up then old(watch.phases)[g.name := Woken(Some(s.name))] else old(watch.phases)
      ensures up ==> rows == []
      ensures !up ==> |rows| == 1 && rows[0] == Failed(Machine(g.name), false, rows[0].error)
      ensures !up ==> Tried(cfg, watch, rows, g.name)
      ensures AllBacked(cfg, watch, rows)
    {
      up := false;
      var ok := ConnectOrRaise(s, g.name, HostLogin);
      var error := Text("connection failed");
      if ok {
        up, error := StartVm(s, g);
      }
      rows := if up then [] else [Failed(Machine(g.name), false, error)];
      if !up {
        FailedIsBacked(cfg, watch, Machine(g.name), false, error);
      }
    }

    /** On the hypervisor's connection: `qm start`, and the wait. */
    method StartVm(s: Server, g: Server) returns (up: bool, error: Detail)
      requires Valid() && watch.handedOff.None? && g.name != s.name && watch.restarts == {}
      requires MayCall(cfg, watch, g) && IsUp(watch, s.name) && g.name in watch.visited
      requires Orderly(cfg.servers) ==> g.name !in watch.cameUp
      modifies this`log, this`watch, this`stopRequested, this`enrolled
      ensures Valid()
      ensures AtWork(old(watch).(phases := watch.phases), watch) && watch.restarts == {}
      ensures watch.phases == if up then old(watch.phases)[g.name := Woken(Some(s.name))] else old(watch.phases)
      ensures !up ==> FailedOn(Machine(g.name)) in watch.answers && (error.Text? || error.DidNotComeUp?)
      ensures !up ==> if error.DidNotComeUp? then NoAnswer(g.name) in watch.answers
                      else RaisedOn(g.name) in watch.answers && KeptFrom(g.name) in watch.answers
    {
      var r := SendQmStart(s, g);
      up, error := false, DidNotComeUp;
      if r.Raised? {
        error := Text(r.message);
        return;
      }
      CalledAndWaiting(cfg, old(watch), watch, VmStarted(g, s.name), g.name);
      up := ComeUpOrNot(g.name, Some(s.name));
    }

    method SendQmStart(s: Server, g: Server) returns (r: Reply)
      requires Valid() && watch.handedOff.None? && g.name != s.name && watch.restarts == {}
      requires MayCall(cfg, watch, g) && IsUp(watch, s.name) && g.name in watch.visited
      modifies this`log, this`watch, this`stopRequested, this`enrolled
      ensures Valid() && Settled(Next(old(watch), VmStarted(g, s.name)), watch)
      ensures r.Raised? ==> CutShort(watch, g.name) && KeptFrom(g.name) in watch.answers
    {
      Emit(VmStarted(g, s.name));
      r := Remote(Question(Machine(g.name), QmStart));
    }

    /** The `try` of a guest's update, its `except` clause included. */
    method UpdateVm(g: Server, wasRunning: bool, entries: seq<Project>) returns (rows: seq<Row>)
      requires Valid() && watch.handedOff.None? && Ready(cfg, watch, g) && watch.restarts == {}
      requires CameBy(watch, g.name, wasRunning) && entries == ProjectsOf(cfg, g.name)
      modifies this`log, this`watch, this`stopRequested, this`enrolled
      ensures Valid() && AtWork(old(watch), watch) && watch.restarts == {}
      ensures AllBacked(cfg, watch, rows) && MachinesIn(rows) == {g.name}
      ensures Tried(cfg, watch, rows, g.name)
    {
      rows := [];
      var reached := ConnectOrRaise(g, g.name, Login);
      if reached {
        Learn(g.name);
        var failed;
        failed, rows := UpdateReachedVm(g, wasRunning, entries);
        if !failed {
          return;
        }
      }
      var last := Failed(Machine(g.name), wasRunning, Text("exception"));
      FailedIsBacked(cfg, watch, Machine(g.name), wasRunning, Text("exception"));
      MachinesOfSum(rows, [last]);
      OneRow(last);
      rows := rows + [last];
    }

    /** The update of a guest on an open connection, then its projects. `failed`: it raised. */
    method UpdateReachedVm(g: Server, wasRunning: bool, entries: seq<Project>) returns (failed: bool, rows: seq<Row>)
      requires Valid() && watch.handedOff.None? && Ready(cfg, watch, g) && watch.restarts == {}
      requires CameBy(watch, g.name, wasRunning) && entries == ProjectsOf(cfg, g.name)
      modifies this`log, this`watch, this`stopRequested, this`enrolled
      ensures Valid() && AtWork(old(watch), watch) && watch.restarts == {}
      ensures AllBacked(cfg, watch, rows)
      ensures MachinesIn(rows) <= {g.name} && (!failed ==> MachinesIn(rows) == {g.name})
      ensures failed ==> CutShort(watch, g.name)
      ensures Attempted(g.name) in watch.deeds && Tried(cfg, watch, rows, g.name)
    {
      rows := [];
      var r := RunCommand(g);
      failed := r.Raised?;
      if failed {
        return;
      }
      DoneIsBacked(cfg, watch, Machine(g.name), r.code == 0, wasRunning, r.err, "");
      var row := Done(Machine(g.name), r.code == 0, wasRunning, r.err, "");
      label before:
      var moreRows;
      failed, moreRows := UpdateContainers(g, entries);
      BackedLater(cfg, old@before(watch), watch, [row]);
      ThenProjects(cfg, watch, row, moreRows, g.name, failed);
      rows := [row] + moreRows;
    }

    /** A guest that was off: started, updated if it came up, and shut down again. */
    method UpdateSleepingGuest(s: Server, g: Server, entries: seq<Project>) returns (rows: seq<Row>)
      requires Valid() && watch.handedOff.None? && MayCall(cfg, watch, g) && g.name in watch.visited
      requires Orderly(cfg.servers) ==> g.name !in watch.cameUp
      requires g.name != s.name && IsUp(watch, s.name) && g.name !in watch.taken
      requires OnlyAwake(watch, s.name)
      requires entries == ProjectsOf(cfg, g.name)
      requires g.name in ManagedNames(cfg.servers)
      modifies this`log, this`watch, this`stopRequested, this`enrolled
      ensures Valid() && AtWork(old(watch), watch) && watch.restarts == {}
      ensures AllBacked(cfg, watch, rows) && MachinesIn(rows) == {g.name}
      ensures Tried(cfg, watch, rows, g.name)
    {
      var up;
      up, rows := StartGuest(s, g);
      if up {
        rows := UpdateStartedGuest(s, g, entries, old(watch));
      } else {
        OneRow(rows[0]);
      }
    }

    /** The update of a guest the run has started, and its shutdown. */
    method UpdateStartedGuest(s: Server, g: Server, entries: seq<Project>, ghost before: Watch) returns (rows: seq<Row>)
      requires Valid() && watch.handedOff.None? && Ready(cfg, watch, g) && watch.restarts == {}
      requires AtWork(before.(phases := watch.phases), watch)
      requires IsIn(before, g.name, Off) && watch.phases == before.phases[g.name := Woken(Some(s.name))]
      requires NoGuestAwakeOn(watch, g.name)
      requires entries == ProjectsOf(cfg, g.name)
      modifies this`log, this`watch, this`stopRequested, this`enrolled
      ensures Valid() && AtWork(before, watch) && watch.restarts == {}
      ensures AllBacked(cfg, watch, rows) && MachinesIn(rows) == {g.name}
      ensures Tried(cfg, watch, rows, g.name)
    {
      rows := UpdateVm(g, false, entries);
      label updated:
      SwitchOff(s, g.name);
      GuestSleepsAgain(cfg, before, old@updated(watch), watch, s.name, g, rows);
    }

    /** A guest that may be updated, put back as it was found. */
    method UpdateGuest(s: Server, g: Server, entries: seq<Project>) returns (rows: seq<Row>)
      requires Valid() && watch.handedOff.None? && Member(cfg, watch.enrolled, g) && HasCommand(g)
      requires g.name != s.name && IsUp(watch, s.name) && g.name in watch.visited && g.name !in watch.taken
      requires Orderly(cfg.servers) ==> g.name !in watch.foundUp && g.name !in watch.foundDown
      requires OnlyAwake(watch, s.name)
      requires entries == ProjectsOf(cfg, g.name)
      requires g.name in ManagedNames(cfg.servers)
      modifies this`log, this`watch, this`stopRequested, this`enrolled
      ensures Valid() && Later(old(watch), watch) && OnlyPhaseOf(old(watch), watch, g.name)
      ensures watch.guests == old(watch.guests) && OnlyAwake(watch, s.name)
      ensures AllBacked(cfg, watch, rows) && MachinesIn(rows) == {g.name}
      ensures Tried(cfg, watch, rows, g.name)
    {
      ReplayInStep(cfg, enrolledBefore, log);
      var wasRunning := IsHostUp(g.name);
      label looked:
      if wasRunning {
        rows := UpdateVm(g, true, entries);
      } else {
        rows := UpdateSleepingGuest(s, g, entries);
      }
      LookedThenWorked(old(watch), old@looked(watch), watch, s.name, g.name, wasRunning);
    }

    /** One turn of the loop over `manages_vms`, after the stop check. */
    method VisitGuest(s: Server, name: string, defer: Option<string>) returns (rows: seq<Row>)
      requires Valid() && watch.handedOff.None?
      requires name != s.name && IsUp(watch, s.name)
      requires Orderly(cfg.servers) ==> name !in watch.visited
      requires OnlyAwake(watch, s.name)
      requires name in ManagedNames(cfg.servers)
      modifies this`log, this`watch, this`stopRequested, this`enrolled
      ensures Valid() && Later(old(watch), watch) && OnlyPhaseOf(old(watch), watch, name)
      ensures watch.guests == old(watch.guests) && OnlyAwake(watch, s.name)
      ensures AllBacked(cfg, watch, rows) && MachinesIn(rows) == Known(cfg, name, defer)
      ensures defer == Some(name) ==> watch == old(watch)
      ensures defer != Some(name) && name in ServerMap(cfg.servers) ==>
                GuestHandled(cfg, watch, rows, ServerMap(cfg.servers)[name])
    {
      var known := ServerMap(cfg.servers);
      if defer == Some(name) || name !in known {
        return [];
      }
      rows := VisitKnownGuest(s, known[name]);
    }

    method VisitKnownGuest(s: Server, g: Server) returns (rows: seq<Row>)
      requires Valid() && watch.handedOff.None? && g in cfg.servers
      requires g.name != s.name && IsUp(watch, s.name)
      requires Orderly(cfg.servers) ==> g.name !in watch.visited
      requires OnlyAwake(watch, s.name)
      requires g.name in ManagedNames(cfg.servers)
      modifies this`log, this`watch, this`stopRequested, this`enrolled
      ensures Valid() && Later(old(watch), watch) && OnlyPhaseOf(old(watch), watch, g.name)
      ensures watch.guests == old(watch.guests) && OnlyAwake(watch, s.name)
      ensures AllBacked(cfg, watch, rows) && MachinesIn(rows) == {g.name} && GuestHandled(cfg, watch, rows, g)
    {
      ReplayInStep(cfg, enrolledBefore, log);
      var reason := SkipReason(cfg, enrolled, g);
      if reason.Some? {
        rows := [Skipped(Machine(g.name), false, reason.value)];
        OneRow(rows[0]);
        return;
      }
      BeginVisit(g.name);
      label visited:
      assert OnlyPhaseOf(old(watch), watch, g.name);
      rows := WorkOnGuest(s, g);
      PhasesTrans(old(watch), old@visited(watch), watch, g.name);
    }

    method WorkOnGuest(s: Server, g: Server) returns (rows: seq<Row>)
      requires Valid() && watch.handedOff.None? && g in cfg.servers && Member(cfg, watch.enrolled, g)
      requires g.name != s.name && IsUp(watch, s.name) && g.name in watch.visited && g.name !in watch.taken
      requires Orderly(cfg.servers) ==> g.name !in watch.foundUp && g.name !in watch.foundDown
      requires OnlyAwake(watch, s.name)
      requires g.name in ManagedNames(cfg.servers)
      modifies this`log, this`watch, this`stopRequested, this`enrolled
      ensures Valid() && Later(old(watch), watch) && OnlyPhaseOf(old(watch), watch, g.name)
      ensures watch.guests == old(watch.guests) && OnlyAwake(watch, s.name)
      ensures AllBacked(cfg, watch, rows) && MachinesIn(rows) == {g.name} && GuestHandled(cfg, watch, rows, g)
    {
      if HasCommand(g) {
        rows := UpdateGuest(s, g, ProjectsOf(cfg, g.name));
      } else {
        rows := LookOnly(s, g);
      }
    }

    /** There is nothing to run on the guest: it is not started, only looked at. */
    method LookOnly(s: Server, g: Server) returns (rows: seq<Row>)
      requires Valid() && watch.handedOff.None? && g in cfg.servers && !HasCommand(g)
      requires g.name != s.name && g.name in watch.visited && OnlyAwake(watch, s.name)
      requires Orderly(cfg.servers) ==> g.name !in watch.foundUp && g.name !in watch.foundDown
      modifies this`log, this`watch, this`stopRequested, this`enrolled
      ensures Valid() && Later(old(watch), watch) && OnlyPhaseOf(old(watch), watch, g.name)
      ensures watch.guests == old(watch.guests) && OnlyAwake(watch, s.name)
      ensures AllBacked(cfg, watch, rows) && MachinesIn(rows) == {g.name}
    {
      var up := IsHostUp(g.name);
      rows := [Skipped(Machine(g.name), up, NoCommand)];
      JustLooked(cfg, old(watch), watch, s.name, g, up);
    }

    /** The loop over the guests of a host that is up. `begun` of them were begun. */
    method UpdateGuests(s: Server, defer: Option<string>) returns (rows: seq<Row>, ghost begun: nat)
      requires Valid() && watch.handedOff.None? && IsUp(watch, s.name) && s in cfg.servers
      requires forall g | g in s.guests :: g.name != s.name
      requires GuestsNotVisited(cfg, watch, s) && OnlyAwake(watch, s.name)
      modifies this`log, this`watch, this`stopRequested, this`enrolled
      ensures Valid() && GuestWalk(cfg, old(watch), watch, s, defer, rows, begun)
      ensures AllBacked(cfg, watch, rows)
      ensures GuestsHandled(cfg, watch, rows, s.guests[..begun], defer)
      ensures begun == |s.guests| || watch.stopped
    {
      rows, begun := [], 0;
      var i := 0;
      assert GuestNames(s.guests[..0]) == [];
      while i < |s.guests|
        invariant begun == i <= |s.guests|
        invariant Valid() && GuestWalk(cfg, old(watch), watch, s, defer, rows, i)
        invariant AllBacked(cfg, watch, rows)
        invariant GuestsHandled(cfg, watch, rows, s.guests[..i], defer)
      {
        label before:
        assert s.guests[i] in s.guests;
        var stop, more := NextGuest(s, i, rows, defer);
        GuestWalkStep(cfg, old(watch), old@before(watch), watch, s, defer, rows, more, i, stop);
        rows := rows + more;
        if stop {
          return;
        }
        i := i + 1;
        begun := i;
      }
    }

    /** One guest more, unless a stop is seen before it. */
    method NextGuest(s: Server, i: nat, rows: seq<Row>, defer: Option<string>) returns (stop: bool, more: seq<Row>)
      requires Valid() && watch.handedOff.None? && IsUp(watch, s.name) && i < |s.guests| && s in cfg.servers
      requires s.guests[i].name != s.name && OnlyAwake(watch, s.name)
      requires Orderly(cfg.servers) ==> s.guests[i].name !in watch.visited
      requires AllBacked(cfg, watch, rows) && GuestsHandled(cfg, watch, rows, s.guests[..i], defer)
      modifies this`log, this`watch, this`stopRequested, this`enrolled
      ensures Valid() && GuestTaken(cfg, old(watch), watch, s, i, defer, stop, more)
      ensures AllBacked(cfg, watch, rows + more)
      ensures GuestsHandled(cfg, watch, rows + more, s.guests[..if stop then i else i + 1], defer)
    {
      var name := s.guests[i].name;
      stop := CheckStop(GuestBegun(name));
      more := [];
      label begun:
      assert OnlyPhaseOf(old(watch), watch, name);
      if !stop {
        more := VisitGuest(s, name, defer);
        PhasesTrans(old(watch), old@begun(watch), watch, name);
      }
      BackedLater(cfg, old(watch), watch, rows);
      GuestsHandledLater(cfg, old(watch), watch, rows, more, s.guests[..i], defer);
      if !stop {
        OneGuestMore(cfg, watch, rows, more, s.guests, i, defer);
      }
    }

    // -- one host ------------------------------------------------------------

    /** `update_server`: one host and the guests it starts. `defer` is the guest left for later,
        timar's own. `raised` is an exception that ends the run: only sending the magic packet can
        raise outside a `try`. */
    method UpdateServer(s: Server, defer: Option<string>)
        returns (raised: bool, rows: seq<Row>, ghost begun: nat)
      requires Valid() && watch.handedOff.None? && AsFound(watch) && Member(cfg, watch.enrolled, s)
      requires defer != Some(s.name) && forall g | g in s.guests :: g.name != s.name
      requires s in cfg.servers && NotVisited(cfg, watch, s)
      modifies this`log, this`watch, this`stopRequested, this`enrolled
      ensures Valid() && HostTaken(cfg, old(watch), watch, s, defer, raised, rows, begun)
    {
      if !HasCommand(s) {
        raised, rows, begun := false, [Skipped(Machine(s.name), true, NoCommand)], 0;
        LeftAlone(cfg, watch, s, defer, rows[0]);
        return;
      }
      ReplayInStep(cfg, enrolledBefore, log);
      var wasRunning := LookAt(s);
      label probed:
      raised, rows, begun := UpdateProbedHost(s, wasRunning, defer);
      HostTakenFrom(cfg, old(watch), old@probed(watch), watch, s, defer, raised, rows, begun);
    }

    /** The visit of a host begins: is it up? */
    method LookAt(s: Server) returns (wasRunning: bool)
      requires Valid() && watch.handedOff.None? && AsFound(watch) && Member(cfg, watch.enrolled, s) && HasCommand(s)
      requires NotVisited(cfg, watch, s) && InStep(watch) && forall g | g in s.guests :: g.name != s.name
      modifies this`log, this`watch, this`stopRequested, this`enrolled
      ensures Valid() && Later(old(watch), watch) && AsFound(watch) && OnlyPhaseOf(old(watch), watch, s.name)
      ensures watch.guests == old(watch.guests) && watch.visited == old(watch.visited) + {s.name}
      ensures Member(cfg, watch.enrolled, s) && GuestsNotVisited(cfg, watch, s)
      ensures IsIn(watch, s.name, if wasRunning then Running else Off) && s.name !in watch.taken
      ensures wasRunning ==> s.name in watch.foundUp
      ensures !wasRunning ==> MayCall(cfg, watch, s) && (Orderly(cfg.servers) ==> s.name !in watch.cameUp)
    {
      BeginVisit(s.name);
      label visited:
      wasRunning := IsHostUp(s.name);
      LookedAt(cfg, old(watch), old@visited(watch), watch, s, wasRunning);
    }

    /** `update_server` once the host was probed. */
    method UpdateProbedHost(s: Server, wasRunning: bool, defer: Option<string>)
        returns (raised: bool, rows: seq<Row>, ghost begun: nat)
      requires Valid() && watch.handedOff.None? && AsFound(watch) && Member(cfg, watch.enrolled, s) && HasCommand(s)
      requires IsIn(watch, s.name, if wasRunning then Running else Off) && s.name in watch.visited
      requires s.name !in watch.taken && (wasRunning ==> s.name in watch.foundUp)
      requires !wasRunning ==> MayCall(cfg, watch, s) && (Orderly(cfg.servers) ==> s.name !in watch.cameUp)
      requires defer != Some(s.name) && forall g | g in s.guests :: g.name != s.name
      requires s in cfg.servers && GuestsNotVisited(cfg, watch, s)
      modifies this`log, this`watch, this`stopRequested, this`enrolled
      ensures Valid() && HostTaken(cfg, old(watch), watch, s, defer, raised, rows, begun)
    {
      raised, rows, begun := false, [], 0;
      if wasRunning {
        rows, begun := UpdateAwakeHost(s, true, defer);
      } else if OffByChoice(s) {
        rows := [Skipped(Machine(s.name), false, OffByHand)];
        LeftAlone(cfg, watch, s, defer, rows[0]);
      } else {
        raised, rows, begun := UpdateSleepingHost(s, defer);
      }
    }

    /** `update_server` for a host that was off: wake it, do the work, put it back to sleep. */
    method UpdateSleepingHost(s: Server, defer: Option<string>)
        returns (raised: bool, rows: seq<Row>, ghost begun: nat)
      requires Valid() && watch.handedOff.None? && AsFound(watch) && MayCall(cfg, watch, s) && !OffByChoice(s)
      requires (Orderly(cfg.servers) ==> s.name !in watch.cameUp) && s.name !in watch.taken
      requires defer != Some(s.name) && forall g | g in s.guests :: g.name != s.name
      requires s in cfg.servers && GuestsNotVisited(cfg, watch, s)
      modifies this`log, this`watch, this`stopRequested, this`enrolled
      ensures Valid() && HostTaken(cfg, old(watch), watch, s, defer, raised, rows, begun)
    {
      ReplayInStep(cfg, enrolledBefore, log);
      begun := 0;
      var up;
      raised, up := WakeAndWait(s);
      if !up {
        rows := if raised then [] else [Failed(Machine(s.name), false, DidNotComeUp)];
        HostStayedDown(cfg, old(watch), watch, s, defer, raised);
        return;
      }
      label woken:
      HostWoken(cfg, old(watch), watch, s, defer);
      rows, begun := UpdateThenSleep(s, defer);
      HostTakenFrom(cfg, old(watch), old@woken(watch), watch, s, defer, raised, rows, begun);
    }

    method UpdateThenSleep(s: Server, defer: Option<string>) returns (rows: seq<Row>, ghost begun: nat)
      requires Valid() && watch.handedOff.None? && Ready(cfg, watch, s)
      requires Awake(watch, s.name) && OnlyAwake(watch, s.name)
      requires defer != Some(s.name) && forall g | g in s.guests :: g.name != s.name
      requires s in cfg.servers && GuestsNotVisited(cfg, watch, s)
      modifies this`log, this`watch, this`stopRequested, this`enrolled
      ensures Valid() && HostTaken(cfg, old(watch), watch, s, defer, false, rows, begun)
    {
      rows, begun := UpdateAwakeHost(s, false, defer);
      label before:
      SwitchOff(s, s.name);
      WorkThenSleep(cfg, old(watch), old@before(watch), watch, s, defer, rows, begun);
    }

    /** `update_server` between the wake and the shutdown: the host, its restart, its guests. */
    method UpdateAwakeHost(s: Server, wasRunning: bool, defer: Option<string>)
        returns (rows: seq<Row>, ghost begun: nat)
      requires Valid() && watch.handedOff.None? && Ready(cfg, watch, s)
      requires CameBy(watch, s.name, wasRunning) && OnlyAwake(watch, s.name)
      requires forall g | g in s.guests :: g.name != s.name
      requires s in cfg.servers && GuestsNotVisited(cfg, watch, s)
      modifies this`log, this`watch, this`stopRequested, this`enrolled
      ensures Valid() && HostWorked(cfg, old(watch), watch, s, defer, rows, begun)
    {
      begun := 0;
      assert GuestNames(s.guests[..0]) == [];
      var raised;
      raised, rows := UpdateAndRestart(s, wasRunning);
      if raised {
        rows := rows + [Failed(Machine(s.name), wasRunning, Text("exception"))];
        StepCutShort(cfg, old(watch), watch, s, defer, rows[..|rows| - 1], wasRunning);
        return;
      }
      label before:
      var guestRows;
      guestRows, begun := UpdateGuests(s, defer);
      HostThenGuests(cfg, old(watch), old@before(watch), watch, s, defer, rows, guestRows, begun);
      rows := rows + guestRows;
    }

    /** The host alone. */
    method UpdateAndRestart(s: Server, wasRunning: bool) returns (raised: bool, rows: seq<Row>)
      requires Valid() && watch.handedOff.None? && Ready(cfg, watch, s) && s in cfg.servers
      requires CameBy(watch, s.name, wasRunning) && watch.restarts == {}
      modifies this`log, this`watch, this`stopRequested, this`enrolled
      ensures Valid() && AtWork(old(watch).(taken := watch.taken), watch) && watch.restarts == {}
      ensures AllBacked(cfg, watch, rows) && OwnRowsOnly(rows, s.name) && Handled(cfg, watch, rows, s)
      ensures if raised then CutShort(watch, s.name) else rows != []
      ensures rows != [] ==> rows[0].subject == Machine(s.name)
    {
      var restart;
      raised, rows, restart := UpdateHost(s, wasRunning, ProjectsOf(cfg, s.name));
      if !raised {
        label updated:
        ghost var asUpdated := rows;
        rows := RestartIfAsked(s, restart, rows);
        HandledLater(cfg, old@updated(watch), watch, asUpdated, [], s);
        assert asUpdated + [] == asUpdated;
        Amended(cfg, watch, asUpdated, rows, s);
      }
    }

    // -- timar's own host ----------------------------------------------------

    /** `find_self_host`: ask the hosts with compose projects, each once, which of them runs this
        container. */
    method FindSelfHost() returns (own: Option<string>)
      requires Valid() && watch.handedOff.None? && AsFound(watch) && watch.visited == {}
      modifies this`log, this`watch, this`stopRequested, this`enrolled
      ensures Valid() && Later(old(watch), watch) && AsFound(watch)
      ensures watch.visited == {} && watch.guests == old(watch.guests)
      ensures own.Some? ==> own.value in ServerMap(cfg.servers) && IsIn(watch, own.value, Running)
      ensures OwnSought(cfg, world.me, watch, own)
    {
      own := None;
      if world.me.None? {
        return;
      }
      var known := ServerMap(cfg.servers);
      var asked: set<string> := {};
      for i := 0 to |cfg.projects|
        invariant Valid() && Later(old(watch), watch) && AsFound(watch) && own.None?
        invariant watch.visited == {} && watch.guests == old(watch.guests)
        invariant forall n | n in asked :: RunsElsewhere(n) in watch.answers
        invariant forall k | 0 <= k < i && cfg.projects[k].server in known :: cfg.projects[k].server in asked
      {
        var name := cfg.projects[i].server;
        if name in asked || name !in known {
          continue;
        }
        asked := asked + {name};
        var here := IsItHere(known[name]);
        if here {
          assert cfg.projects[i] in cfg.projects;
          return Some(name);
        }
      }
    }

    /** One of them: up, reached, and its docker knows the container. A failure is only logged. */
    method IsItHere(s: Server) returns (here: bool)
      requires Valid() && watch.handedOff.None? && AsFound(watch) && watch.visited == {}
      modifies this`log, this`watch, this`stopRequested, this`enrolled
      ensures Valid() && Later(old(watch), watch) && AsFound(watch)
      ensures watch.visited == {} && watch.guests == old(watch.guests)
      ensures if here then RunsHere(s.name) in watch.answers && IsIn(watch, s.name, Running)
              else RunsElsewhere(s.name) in watch.answers
    {
      var up := IsHostUp(s.name);
      if !up {
        Emit(SelfSought(s.name, false));
        return false;
      }
      here := AskDocker(s);
    }

    /** Reach it, and ask its docker for the container. */
    method AskDocker(s: Server) returns (here: bool)
      requires Valid() && watch.handedOff.None? && IsUp(watch, s.name) && s.name !in watch.visited
      modifies this`log, this`watch, this`stopRequested, this`enrolled
      ensures Valid() && Settled(old(watch), watch)
      ensures if here then RunsHere(s.name) in watch.answers else RunsElsewhere(s.name) in watch.answers
    {
      var ok := Connect(s, Question(Machine(s.name), Login));
      if !ok {
        Emit(SelfSought(s.name, false));
        return false;
      }
      here := Inspect(s.name);
    }

    method Inspect(name: string) returns (here: bool)
      requires Valid() && watch.handedOff.None? && IsUp(watch, name)
      modifies this`log, this`watch, this`stopRequested, this`enrolled
      ensures Valid() && Settled(old(watch), watch)
      ensures if here then RunsHere(name) in watch.answers else RunsElsewhere(name) in watch.answers
    {
      var r := Ask(Question(Machine(name), InspectSelf));
      here := Good(r) && world.me == Some(r.out);
      Emit(SelfSought(name, here));
    }

    /** `wait_for_self_update`: ask until the host answers or the time runs out. A check that
        could not be made counts as "not yet". */
    method WaitForSelfUpdate(s: Server, deadline: nat, note: string) returns (row: Row, ghost answer: HostAnswer)
      requires Valid() && watch.handedOff == Some(s.name) && watch.deadline == deadline && AsFound(watch)
      modifies this`log, this`watch, this`stopRequested, this`enrolled
      ensures Valid() && Onward(old(watch), watch) && AsFound(watch)
      ensures watch.hosts == old(watch.hosts) && watch.handedOff == old(watch.handedOff)
      ensures watch.guests == old(watch.guests) && watch.visited == old(watch.visited)
      ensures row == OwnHostRow(s.name, answer, note)
      ensures if row.success then Worked(row.subject) in watch.deeds else FailedOn(row.subject) in watch.answers
      ensures log != [] && ToldOfOwn(log[|log| - 1], answer)
    {
      while true
        invariant Valid() && Settled(old(watch), watch)
        decreases if deadline < Clock(world, |log|) then 0 else deadline + 1 - Clock(world, |log|)
      {
        ghost var before := |log|;
        var seen := CheckSelfUpdate(s);
        ClockTicks(world, before, |log|);
        if seen.Some? {
          answer := seen.value;
          row := TakeAnswer(s, seen.value, note);
          return;
        }
        if deadline < Clock(world, |log|) {
          answer := TimedOut;
          row := RunOutOfTime(s, note);
          return;
        }
      }
    }

    method TakeAnswer(s: Server, answer: HostAnswer, note: string) returns (row: Row)
      requires Valid() && watch.handedOff == Some(s.name) && log != []
      requires Told(watch, Machine(s.name), UnitStatus) && watch.line.r.Reply?
      requires log[|log| - 1] == Replied(watch.line.q, watch.line.r) && world.StatusOf(watch.line.r.out) == Some(answer)
      modifies this`log, this`watch, this`stopRequested, this`enrolled
      ensures Valid() && watch == old(watch).(deeds := watch.deeds, answers := watch.answers)
      ensures old(watch).deeds <= watch.deeds && old(watch).answers <= watch.answers
      ensures row == OwnHostRow(s.name, answer, note)
      ensures if row.success then Worked(row.subject) in watch.deeds else FailedOn(row.subject) in watch.answers
      ensures log != [] && log[|log| - 1] == HandoffDone(answer)
    {
      row := OwnHostRow(s.name, answer, note);
      Emit(HandoffDone(answer));
    }

    method RunOutOfTime(s: Server, note: string) returns (row: Row)
      requires Valid() && watch.handedOff == Some(s.name) && log != []
      requires NotYet(world, log[|log| - 1]) && watch.deadline < Clock(world, |log|)
      modifies this`log, this`watch, this`stopRequested, this`enrolled
      ensures Valid() && Settled(old(watch), watch)
      ensures row == OwnHostRow(s.name, TimedOut, note) && FailedOn(row.subject) in watch.answers
      ensures log != [] && log[|log| - 1].RanOut?
    {
      row := OwnHostRow(s.name, TimedOut, note);
      Emit(RanOut(Clock(world, |log|)));
    }

    /** One check: `handoff_status` on a connection of its own. */
    method CheckSelfUpdate(s: Server) returns (seen: Option<HostAnswer>)
      requires Valid() && watch.handedOff == Some(s.name)
      modifies this`log, this`watch, this`stopRequested, this`enrolled
      ensures Valid() && Settled(old(watch), watch) && |log| > |old(log)|
      ensures seen.None? ==> NotYet(world, log[|log| - 1])
      ensures seen.Some? ==>
                && Told(watch, Machine(s.name), UnitStatus) && watch.line.r.Reply?
                && log[|log| - 1] == Replied(watch.line.q, watch.line.r)
                && world.StatusOf(watch.line.r.out) == seen
    {
      seen := None;
      var ok := Connect(s, Question(Machine(s.name), Login));
      if ok {
        var r := Ask(Question(Machine(s.name), UnitStatus));
        if r.Reply? {
          seen := world.StatusOf(r.out);
        }
      }
    }

    /** `update_self`: the projects first, then the packages, handed to the host's own systemd.
        `done` is every row so far; what was handed off is saved with the rows it would add to. */
    method UpdateSelf(s: Server, done: seq<Row>) returns (rows: seq<Row>, ghost answer: HostAnswer)
      requires Valid() && watch.handedOff.None? && handoff.None? && AsFound(watch)
      requires Member(cfg, watch.enrolled, s) && IsIn(watch, s.name, Running) && s.name in watch.visited
      requires RunsHere(s.name) in watch.answers
      requires AllBacked(cfg, watch, done)
      requires s in cfg.servers
      modifies this
      ensures Valid() && Onward(old(watch), watch) && AsFound(watch) && watch.hosts == old(watch.hosts)
      ensures watch.guests == old(watch.guests) && watch.visited == old(watch.visited)
      ensures AllBacked(cfg, watch, rows) && MachinesIn(rows) == {s.name} && OwnTried(cfg, watch, rows, s)
      ensures handoff.Some? <==> watch.handedOff.Some?
      ensures handoff.Some? ==> handoff.value.host == s.name && watch.handedOff == Some(s.name)
      ensures handoff.Some? ==> done + rows == handoff.value.rows + [OwnHostRow(s.name, answer, "")]
      ensures handoff.Some? ==> log != [] && ToldOfOwn(log[|log| - 1], answer)
    {
      var raised;
      raised, rows := UpdateOwnProjects(s);
      var last;
      label before:
      last, answer := FinishSelf(s, done + rows, raised);
      BackedLater(cfg, old@before(watch), watch, rows);
      ThenOwnRow(cfg, watch, rows, last, s);
      assert done + (rows + [last]) == (done + rows) + [last];
      rows := rows + [last];
    }

    /** After the projects: an exception, nothing to run, or the packages. */
    method FinishSelf(s: Server, done: seq<Row>, raised: bool) returns (last: Row, ghost answer: HostAnswer)
      requires Valid() && watch.handedOff.None? && handoff.None? && AsFound(watch) && s in cfg.servers
      requires Member(cfg, watch.enrolled, s) && IsIn(watch, s.name, Running) && s.name in watch.visited
      requires RunsHere(s.name) in watch.answers
      requires raised ==> CutShort(watch, s.name)
      modifies this
      ensures Valid() && Onward(old(watch), watch) && AsFound(watch) && watch.hosts == old(watch.hosts)
      ensures watch.guests == old(watch.guests) && watch.visited == old(watch.visited)
      ensures last in BackedRows(cfg, watch) && last.subject == Machine(s.name)
      ensures || raised || NotForRun(cfg, watch, s)
              || Attempted(s.name) in watch.deeds || KeptFrom(s.name) in watch.answers
      ensures handoff.Some? <==> watch.handedOff.Some?
      ensures handoff.Some? ==>
                && handoff.value.host == s.name && watch.handedOff == Some(s.name) && handoff.value.rows == done
                && last == OwnHostRow(s.name, answer, "")
                && log != [] && ToldOfOwn(log[|log| - 1], answer)
    {
      answer := Gone;
      if raised {
        last := Failed(Machine(s.name), true, Text("exception"));
        FailedIsBacked(cfg, watch, Machine(s.name), true, Text("exception"));
      } else if !HasCommand(s) {
        last := Skipped(Machine(s.name), true, NoCommand);
        SkippedIsBacked(cfg, watch, Machine(s.name), true, NoCommand);
      } else {
        last, answer := UpdateOwnPackages(s, done);
      }
    }

    /** The own host's update command, given to its systemd; its row. */
    method UpdateOwnPackages(s: Server, done: seq<Row>) returns (last: Row, ghost answer: HostAnswer)
      requires Valid() && watch.handedOff.None? && handoff.None? && AsFound(watch) && HasCommand(s)
      requires Member(cfg, watch.enrolled, s) && IsIn(watch, s.name, Running) && s.name in watch.visited
      requires RunsHere(s.name) in watch.answers
      modifies this
      ensures Valid() && Onward(old(watch), watch) && AsFound(watch) && watch.hosts == old(watch.hosts)
      ensures watch.guests == old(watch.guests) && watch.visited == old(watch.visited)
      ensures last in BackedRows(cfg, watch) && last.subject == Machine(s.name)
      ensures Attempted(s.name) in watch.deeds || KeptFrom(s.name) in watch.answers
      ensures handoff.Some? <==> watch.handedOff.Some?
      ensures handoff.Some? ==>
                && handoff.value.host == s.name && watch.handedOff == Some(s.name) && handoff.value.rows == done
                && last == OwnHostRow(s.name, answer, "")
                && log != [] && ToldOfOwn(log[|log| - 1], answer)
    {
      answer := Gone;
      var r := StartTheUnit(s);
      if !Good(r) {
        var error := Text(if r.Raised? then r.message else r.err);
        last := Failed(Machine(s.name), true, error);
        FailedIsBacked(cfg, watch, Machine(s.name), true, error);
      } else {
        last, answer := HandOff(s, done);
      }
    }

    /** `systemd-run` on the own host. */
    method StartTheUnit(s: Server) returns (r: Reply)
      requires Valid() && watch.handedOff.None? && InReach(watch, s.name) && watch.restarts == {}
      modifies this`log, this`watch, this`stopRequested, this`enrolled
      ensures Valid() && Settled(old(watch), watch)
      ensures if Good(r) then ToldYes(watch, Machine(s.name), StartUnit)
              else FailedOn(Machine(s.name)) in watch.answers && KeptFrom(s.name) in watch.answers
    {
      r := Remote(Question(Machine(s.name), StartUnit));
      if r.Reply? && r.code != 0 {
        Blame(Machine(s.name));
      }
    }

    /** The end of `update_self`: the update is out of this process's hands; save, and wait. */
    method HandOff(s: Server, done: seq<Row>) returns (last: Row, ghost answer: HostAnswer)
      requires Valid() && watch.handedOff.None? && AsFound(watch) && HasCommand(s)
      requires Member(cfg, watch.enrolled, s) && IsIn(watch, s.name, Running) && s.name in watch.visited
      requires RunsHere(s.name) in watch.answers
      requires ToldYes(watch, Machine(s.name), StartUnit)
      modifies this
      ensures Valid() && Onward(old(watch), watch) && AsFound(watch) && watch.hosts == old(watch.hosts)
      ensures watch.guests == old(watch.guests) && watch.visited == old(watch.visited)
      ensures watch.handedOff == Some(s.name) && Attempted(s.name) in watch.deeds
      ensures last == OwnHostRow(s.name, answer, "") && last in BackedRows(cfg, watch)
      ensures handoff.Some? && handoff.value.rows == done && handoff.value.host == s.name
      ensures log != [] && ToldOfOwn(log[|log| - 1], answer)
    {
      var deadline := GiveAway(s);
      handoff := Some(Handoff(done, s.name, deadline));
      label given:
      last, answer := WaitForSelfUpdate(s, deadline, "");
      GivenThenAwaited(old(watch), old@given(watch), watch, s, deadline);
      OwnRowIsBacked(cfg, watch, s.name, answer, "");
    }

    method GiveAway(s: Server) returns (deadline: nat)
      requires Valid() && watch.handedOff.None? && AsFound(watch) && HasCommand(s)
      requires Member(cfg, watch.enrolled, s) && IsIn(watch, s.name, Running) && s.name in watch.visited
      requires RunsHere(s.name) in watch.answers
      requires ToldYes(watch, Machine(s.name), StartUnit)
      modifies this`log, this`watch, this`stopRequested, this`enrolled
      ensures Valid() && watch == Next(old(watch), HandedOff(s, deadline))
      ensures deadline == Clock(world, |old(log)|) + 60 + world.TimeoutOf(s.name)
    {
      deadline := Clock(world, |log|) + HANDOFF_DELAY + world.TimeoutOf(s.name);
      Emit(HandedOff(s, deadline));
    }

    method UpdateOwnProjects(s: Server) returns (raised: bool, rows: seq<Row>)
      requires Valid() && watch.handedOff.None? && Member(cfg, watch.enrolled, s) && InReach(watch, s.name) &&
               watch.restarts == {}
      modifies this`log, this`watch, this`stopRequested, this`enrolled
      ensures Valid() && AtWork(old(watch), watch) && watch.restarts == {}
      ensures AllBacked(cfg, watch, rows) && MachinesIn(rows) == {} && ProjectsTried(cfg, watch, rows, s.name)
      ensures raised ==> CutShort(watch, s.name)
    {
      rows := [];
      var ok := ConnectOrRaise(s, s.name, Login);
      if !ok {
        return true, rows;
      }
      Learn(s.name);
      raised, rows := UpdateContainers(s, ProjectsOf(cfg, s.name));
      assert |rows| == 1 && rows[0].subject == DockerOn(s.name) ==> rows[0] in rows;
    }

    // -- the run -------------------------------------------------------------

    /** One turn of the fleet walk, after the stop check. */
    method VisitServer(s: Server, own: Option<string>) returns (raised: bool, rows: seq<Row>, ghost begun: nat)
      requires Valid() && watch.handedOff.None? && AsFound(watch)
      requires own != Some(s.name) && forall g | g in s.guests :: g.name != s.name
      requires s in cfg.servers && NotVisited(cfg, watch, s)
      modifies this`log, this`watch, this`stopRequested, this`enrolled
      ensures Valid() && ServerVisited(cfg, old(watch), watch, s, own, raised, rows, begun)
    {
      var reason := SkipReason(cfg, enrolled, s);
      if reason.None? {
        raised, rows, begun := UpdateServer(s, own);
        assert s.guests[..|s.guests|] == s.guests;
      } else {
        raised, begun := false, 0;
        rows := LeaveOut(s, own, reason.value);
      }
    }

    /** The rows of a host that is not in the run, and of its guests. */
    method LeaveOut(s: Server, own: Option<string>, reason: Detail) returns (rows: seq<Row>)
      requires Valid() && s in cfg.servers && SkipReason(cfg, enrolled, s) == Some(reason)
      ensures AllBacked(cfg, watch, rows) && MachinesIn(rows) == {s.name} + GuestsBut(s.guests, own)
      ensures OutOfRun(rows, s.name) && !Member(cfg, watch.start, s)
    {
      ReplayInStep(cfg, enrolledBefore, log);
      rows := [Skipped(Machine(s.name), false, reason)];
      OneRow(rows[0]);
      for i := 0 to |s.guests|
        invariant LeftOutUpTo(cfg, watch, rows, s, own, i)
      {
        OneMoreLeftOut(cfg, watch, rows, s, own, i);
        if own != Some(s.guests[i].name) {
          rows := rows + [Skipped(Machine(s.guests[i].name), false, HypervisorNotInRun(s.name))];
        }
      }
      assert s.guests[..|s.guests|] == s.guests;
    }

    /** One turn of the fleet walk. `stop` ends it because a stop was seen, `raised` because of
        an exception. */
    method Turn(s: Server, own: Option<string>) returns (stop: bool, raised: bool, rows: seq<Row>, ghost begun: nat)
      requires Valid() && watch.handedOff.None? && AsFound(watch) && s in cfg.servers
      requires Begins(cfg, s, own) ==> NotVisited(cfg, watch, s)
      modifies this`log, this`watch, this`stopRequested, this`enrolled
      ensures Valid() && WalkingOn(old(watch), watch, own)
      ensures TurnTaken(cfg, old(watch), watch, s, own, stop, raised, rows, begun)
    {
      stop, raised, rows, begun := false, false, [], 0;
      assert GuestNames(s.guests[..0]) == [];
      if PassedOver(cfg, s, own) {
        return;
      }
      if s.window.Some? {
        rows := [Skipped(Machine(s.name), false, OwnWindow)];
        OneRow(rows[0]);
        return;
      }
      NotItsOwnGuest(cfg, s);
      stop := CheckStop(HostBegun(s.name));
      if !stop {
        label begin:
        raised, rows, begun := VisitServer(s, own);
        VisitIsATurn(cfg, old(watch), old@begin(watch), watch, s, own, raised, rows, begun);
      }
    }

    /** The walk over the fleet, timar's own host left out. */
    method WalkFleet(own: Option<string>) returns (raised: bool, rows: seq<Row>)
      requires Valid() && watch.handedOff.None? && AsFound(watch)
      requires watch.hosts == [] && watch.visited == {} && watch.guests == []
      modifies this`log, this`watch, this`stopRequested, this`enrolled
      ensures Valid() && WalkingOn(old(watch), watch, own) && OnItsWay(cfg, watch, rows, own)
      ensures if raised then WasCut(cfg, watch) else HostsHaveRows(watch, rows)
      ensures !raised && !watch.stopped ==> Walked(cfg, watch, rows, own, |cfg.servers|)
    {
      raised, rows := false, [];
      var i := 0;
      NothingWalked(cfg, watch, own);
      while i < |cfg.servers|
        invariant 0 <= i <= |cfg.servers| && !raised
        invariant Valid() && WalkingOn(old(watch), watch, own) && Walked(cfg, watch, rows, own, i)
      {
        var stop, more;
        stop, raised, more := NextHost(i, rows, own, old(watch));
        rows := rows + more;
        if stop || raised {
          return;
        }
        i := i + 1;
      }
      WalkedSoFar(cfg, watch, rows, own, i);
    }

    /** One host more. */
    method NextHost(i: nat, rows: seq<Row>, own: Option<string>, ghost before: Watch)
        returns (stop: bool, raised: bool, more: seq<Row>)
      requires Valid() && i < |cfg.servers| && WalkingOn(before, watch, own) && Walked(cfg, watch, rows, own, i)
      modifies this`log, this`watch, this`stopRequested, this`enrolled
      ensures Valid() && WalkingOn(before, watch, own)
      ensures !stop && !raised ==> Walked(cfg, watch, rows + more, own, i + 1)
      ensures stop ==> watch.stopped
      ensures OnItsWay(cfg, watch, rows + more, own)
      ensures if raised then WasCut(cfg, watch) else HostsHaveRows(watch, rows + more)
    {
      FreshSteps(cfg, watch, rows, own, i);
      ghost var begun;
      stop, raised, more, begun := Turn(cfg.servers[i], own);
      WalksOn(before, old(watch), watch, own);
      TurnStaysOnItsWay(cfg, old(watch), watch, rows, more, own, i, stop, raised, begun);
      if !raised {
        TurnKeepsRows(cfg, old(watch), watch, rows, more, own, i, stop, begun);
        if !stop {
          TurnKeepsWalk(cfg, old(watch), watch, rows, more, own, i, begun);
        }
      }
    }

    /** `run_updates` over the fleet. Whatever is answered, thrown or asked for on the way: the
        log is accepted with every machine as it was found and nothing in it made up, every row is borne
        out by it, hosts and guests are begun in walk order with timar's own host last, no other machine
        is visited, and a run that saved a hand-off reports the saved rows and the own host's. Only the
        exception of a magic packet cuts a run short. One that is neither stopped nor cut has handled
        every host it began with its projects, the guests of each unless there is a reason not to, and
        timar's own host: each was sent its update command unless a bad reply to an earlier call for it
        is in the log, somebody was at it, or it was off by hand; and the report has exactly the hosts
        that have a turn, the guests that were begun, and the guests of hosts that are not in the run. */
    method RunUpdates() returns (raised: bool, rows: seq<Row>, ghost own: Option<string>, ghost answer: HostAnswer)
      requires Valid() && log == [] && handoff.None?
      modifies this
      ensures Accepted(cfg, enrolledBefore, log) && Honest(world, log)
      ensures Replay(cfg, enrolledBefore, log) == Some(watch) && AllBacked(cfg, watch, rows)
      ensures watch.hosts <= Walk(cfg, own, 0) && GuestsInOrder(cfg, own, |cfg.servers|, watch.guests)
      ensures watch.visited <= Reach(cfg, own, |cfg.servers|) + OwnName(own)
      ensures OwnSought(cfg, world.me, watch, own)
      ensures if raised then WasCut(cfg, watch) else HostsHaveRows(watch, rows)
      ensures !raised && !watch.stopped ==>
                SeenTo(cfg, watch, rows, own) && UpdatesShow(cfg, enrolledBefore, log, own)
      ensures handoff.Some? <==> watch.handedOff.Some?
      ensures handoff.Some? ==>
                && !raised && own == Some(handoff.value.host)
                && rows == handoff.value.rows + [OwnHostRow(handoff.value.host, answer, "")]
                && log != [] && ToldOfOwn(log[|log| - 1], answer)
    {
      answer := Gone;
      var found := FindSelfHost();
      own := found;
      raised, rows := WalkFleet(found);
      if raised || found.None? {
        if !raised && !watch.stopped {
          SeenToWithoutOwn(cfg, watch, rows);
          SeenToShows(cfg, enrolledBefore, log, rows, None);
        }
        return;
      }
      ghost var done := rows;
      label walked:
      var more;
      more, answer := FinishWithOwnHost(found.value, rows);
      rows := rows + more;
      HostsStillHaveRows(old@walked(watch), watch, done, more, found.value);
      if !watch.stopped {
        SeenToWithOwn(cfg, old@walked(watch), watch, done, more, found.value);
        SeenToShows(cfg, enrolledBefore, log, rows, found);
      }
    }

    /** The last step of a fleet run: timar's own host, unless a stop was seen before it. */
    method FinishWithOwnHost(name: string, done: seq<Row>) returns (rows: seq<Row>, ghost answer: HostAnswer)
      requires Valid() && watch.handedOff.None? && handoff.None? && AsFound(watch)
      requires name in ServerMap(cfg.servers) && IsIn(watch, name, Running) && AllBacked(cfg, watch, done)
      requires RunsHere(name) in watch.answers
      requires name !in watch.visited
      modifies this
      ensures Valid() && AsFound(watch) && Onward(old(watch), watch) && watch.guests == old(watch.guests)
      ensures AllBacked(cfg, watch, done + rows) && watch.visited <= old(watch.visited) + {name}
      ensures watch.hosts == old(watch.hosts) ||
              (!old(watch).stopped && watch.hosts == old(watch.hosts) + [name] && MachinesIn(rows) == {name})
      ensures !watch.stopped ==> watch.hosts == old(watch.hosts) + [name] && MachinesIn(rows) == {name}
      ensures !watch.stopped ==> OwnHandled(cfg, watch, rows, name)
      ensures handoff.Some? <==> watch.handedOff.Some?
      ensures handoff.Some? ==>
                && handoff.value.host == name && done + rows == handoff.value.rows + [OwnHostRow(name, answer, "")]
                && log != [] && ToldOfOwn(log[|log| - 1], answer)
    {
      answer := Gone;
      rows := [];
      var stop := CheckStop(HostBegun(name));
      BackedLater(cfg, old(watch), watch, done);
      if stop {
        return;
      }
      ReplayInStep(cfg, enrolledBefore, log);
      var s := ServerMap(cfg.servers)[name];
      var reason := SkipReason(cfg, enrolled, s);
      if reason.Some? {
        rows := [Skipped(Machine(name), true, reason.value)];
        OneRow(rows[0]);
        return;
      }
      BeginVisit(name);
      BackedLater(cfg, old(watch), watch, done);
      label begin:
      rows, answer := UpdateSelf(s, done);
      BackedLater(cfg, old@begin(watch), watch, done);
    }

    /** `run_updates(only=name)`: one machine, in its own window, with the guests it starts. A machine
        that lists itself as its guest is not modelled; the settings pages allow none. */
    method RunOnly(name: string) returns (raised: bool, rows: seq<Row>)
      requires Valid() && log == [] && handoff.None?
      requires name in ServerMap(cfg.servers) ==> name !in GuestSet(ServerMap(cfg.servers)[name])
      modifies this
      ensures Accepted(cfg, enrolledBefore, log) && Honest(world, log)
      ensures Replay(cfg, enrolledBefore, log) == Some(watch) && AllBacked(cfg, watch, rows)
      ensures watch.hosts == [] && watch.handedOff.None? && handoff.None?
      ensures name !in ServerMap(cfg.servers) ==> log == []
      ensures name in ServerMap(cfg.servers) ==> watch.guests <= GuestNames(ServerMap(cfg.servers)[name].guests)
      ensures if raised then WasCut(cfg, watch) else RowsAreOf(cfg, rows, name, watch.guests)
      ensures !raised && !watch.stopped && name in ServerMap(cfg.servers) ==>
                && HostHandled(cfg, watch, rows, ServerMap(cfg.servers)[name], None)
                && HostShows(cfg, enrolledBefore, log, ServerMap(cfg.servers)[name], None)
    {
      var known := ServerMap(cfg.servers);
      if name in known {
        raised, rows := RunKnown(known[name]);
        if !raised && !watch.stopped {
          HostIsShown(cfg, enrolledBefore, log, rows, known[name], None);
        }
      } else {
        raised, rows := false, [Failed(Machine(name), true, NotConfigured)];
        OneRow(rows[0]);
        RowsOfOne(cfg, rows, [], 0, name);
      }
    }

    method RunKnown(s: Server) returns (raised: bool, rows: seq<Row>)
      requires Valid() && log == [] && handoff.None? && s in cfg.servers && s.name !in GuestSet(s)
      modifies this
      ensures Valid() && OneDone(cfg, watch, rows, s, raised) && handoff.None?
    {
      raised := false;
      ReplayInStep(cfg, enrolledBefore, log);
      var reason := SkipReason(cfg, enrolled, s);
      if reason.Some? {
        rows := [Skipped(Machine(s.name), false, reason.value)];
        OneRow(rows[0]);
        RowsOfOne(cfg, rows, [], 0, s.name);
        return;
      }
      ghost var begun;
      assert forall g | g in s.guests :: g.name in GuestSet(s);
      raised, rows, begun := UpdateServer(s, None);
      HostIsDone(cfg, old(watch), watch, s, raised, rows, begun);
    }
  }

  /** What is left of a run of one machine. */
  ghost predicate OneDone(cfg: Config, w: Watch, rows: seq<Row>, s: Server, raised: bool) {
    && AsFound(w) && AllBacked(cfg, w, rows)
    && w.hosts == [] && w.handedOff.None?
    && w.guests <= GuestNames(s.guests)
    && (if raised then WasCut(cfg, w) else RowsAreOf(cfg, rows, s.name, w.guests))
    && (!raised && !w.stopped ==> HostHandled(cfg, w, rows, s, None))
  }

  lemma HostIsDone(cfg: Config, w: Watch, v: Watch, s: Server, raised: bool, rows: seq<Row>, begun: nat)
    requires w.hosts == [] && w.guests == [] && w.handedOff.None? && s in cfg.servers
    requires HostTaken(cfg, w, v, s, None, raised, rows, begun)
    ensures OneDone(cfg, v, rows, s, raised)
  {
    assert s.guests[..|s.guests|] == s.guests;
    GuestPrefix(s.guests, begun);
    if !raised {
      RowsOfOne(cfg, rows, s.guests, begun, s.name);
    }
  }

  // -- a run as others see it ------------------------------------------------

  /** A run from start to end: what it met, its log and its report. */
  datatype RunLog = RunLog(world: World, enrolled: set<Address>, log: seq<Event>, raised: bool, rows: seq<Row>)

  /** Its log is a run's log, in that world, and its report is borne out by it. */
  ghost predicate IsRun(cfg: Config, r: RunLog) {
    && Accepted(cfg, r.enrolled, r.log) && Honest(r.world, r.log)
    && AllBacked(cfg, Replay(cfg, r.enrolled, r.log).value, r.rows)
    && (r.raised ==> WasCut(cfg, Replay(cfg, r.enrolled, r.log).value))
  }

  /** A fleet run: neither stopped nor cut, it has seen to every machine that has a turn. */
  ghost predicate IsFleetRun(cfg: Config, own: Option<string>, r: RunLog) {
    && IsRun(cfg, r) && OwnSought(cfg, r.world.me, Replay(cfg, r.enrolled, r.log).value, own)
    && (!r.raised && !Replay(cfg, r.enrolled, r.log).value.stopped ==>
          SeenTo(cfg, Replay(cfg, r.enrolled, r.log).value, r.rows, own) && UpdatesShow(cfg, r.enrolled, r.log, own))
  }

  ghost function FleetRuns(cfg: Config, own: Option<string>): iset<RunLog> {
    iset r | IsFleetRun(cfg, own, r)
  }

  lemma FleetRunIsOne(cfg: Config, own: Option<string>, r: RunLog, w: Watch)
    requires Accepted(cfg, r.enrolled, r.log) && Honest(r.world, r.log) && Replay(cfg, r.enrolled, r.log) == Some(w)
    requires AllBacked(cfg, w, r.rows) && (r.raised ==> WasCut(cfg, w)) && OwnSought(cfg, r.world.me, w, own)
    requires !r.raised && !w.stopped ==> SeenTo(cfg, w, r.rows, own) && UpdatesShow(cfg, r.enrolled, r.log, own)
    ensures r in FleetRuns(cfg, own)
  {
  }

  /** A run of one machine: neither stopped nor cut, it has handled it. */
  ghost predicate IsMachineRun(cfg: Config, name: string, r: RunLog) {
    && IsRun(cfg, r)
    && (!r.raised ==> HasRow(r.rows, name))
    && (!r.raised && !Replay(cfg, r.enrolled, r.log).value.stopped && name in ServerMap(cfg.servers) ==>
          && HostHandled(cfg, Replay(cfg, r.enrolled, r.log).value, r.rows, ServerMap(cfg.servers)[name], None)
          && HostShows(cfg, r.enrolled, r.log, ServerMap(cfg.servers)[name], None))
  }

  lemma GuestPrefix(guests: seq<Guest>, begun: nat)
    requires begun <= |guests|
    ensures GuestNames(guests[..begun]) <= GuestNames(guests)
  {
  }

  /** The report is about the machine and the configured ones of its guests that were begun. */
  ghost predicate RowsAreOf(cfg: Config, rows: seq<Row>, name: string, guests: seq<string>) {
    forall n :: HasRow(rows, n) <==> n == name || (n in guests && n in ServerMap(cfg.servers))
  }

  lemma RowsOfOne(cfg: Config, rows: seq<Row>, guests: seq<Guest>, begun: nat, name: string)
    requires begun <= |guests| && MachinesIn(rows) == {name} + KnownGuests(cfg, guests[..begun], None)
    ensures RowsAreOf(cfg, rows, name, GuestNames(guests[..begun]))
  {
    forall n
      ensures HasRow(rows, n) <==> n == name || (n in GuestNames(guests[..begun]) && n in ServerMap(cfg.servers))
    {
      NamedGuest(guests[..begun], n);
    }
  }

  lemma NamedGuest(guests: seq<Guest>, n: string)
    ensures n in GuestNames(guests) <==> exists g :: g in guests && g.name == n
  {
    if n in GuestNames(guests) {
      var i :| 0 <= i < |guests| && GuestNames(guests)[i] == n;
      assert guests[i] in guests;
    }
    if g :| g in guests && g.name == n {
      var i :| 0 <= i < |guests| && guests[i] == g;
      assert GuestNames(guests)[i] == n;
    }
  }

  lemma NotItsOwnGuest(cfg: Config, s: Server)
    requires s in cfg.servers && s.name !in ManagedNames(cfg.servers)
    ensures forall g | g in s.guests :: g.name != s.name
  {
    var i :| 0 <= i < |cfg.servers| && cfg.servers[i] == s;
    forall g | g in s.guests
      ensures g.name != s.name
    {
      var j :| 0 <= j < |s.guests| && s.guests[j] == g;
      assert cfg.servers[i].guests[j].name == g.name;
    }
  }

  /** The reason a row gives for a skip is in the log, or in the configuration. */
  ghost predicate SkipWasDue(cfg: Config, enrolled: set<Address>, t: seq<Event>, r: Row) {
    match r.error
    case WatchedOnly => exists s :: s in cfg.servers && r.subject == Machine(s.name) && !s.ssh
    case LeftOut => r.subject.Machine? && Update in cfg.exclude && r.subject.name in cfg.exclude[Update]
    case NotEnrolled => exists s :: s in cfg.servers && r.subject == Machine(s.name) && s.address !in enrolled
    case OwnWindow => exists s :: s in cfg.servers && r.subject == Machine(s.name) && s.window.Some?
    case NoCommand =>
      exists s :: s in cfg.servers && r.subject == Machine(s.name) && s.command.None? && s.platform.OpenWrt?
    case OffByHand =>
      && r.subject.Machine? && Probed(r.subject.name, false) in t
      && exists s :: s in cfg.servers && r.subject == Machine(s.name) && s.onDemand && s.wolMac.None?
    case InUse(_) =>
      && r.subject.Machine? && (exists user :: user != "" && UserSeen(r.subject.name, user) in t)
      && exists s :: s in cfg.servers && r.subject == Machine(s.name) && s.platform.Windows?
    case HypervisorNotInRun(h) =>
      exists s, g :: s in cfg.servers && s.name == h && !Member(cfg, enrolled, s) && g in s.guests &&
        r.subject == Machine(g.name)
    case SkippedByChoice =>
      exists e :: e in cfg.projects && r.subject == ComposeProject(e.name, e.server) && e.mode.Skip?
    case IsTimar => r.subject.ComposeProject? && TimarSeen(r.subject.name, r.subject.host) in t
    case _ => false
  }

  lemma UserIsInTheLog(cfg: Config, enrolled: set<Address>, t: seq<Event>, n: string)
    requires Accepted(cfg, enrolled, t) && Busy(n) in StateAt(enrolled, t, |t|).answers
    ensures exists user :: user != "" && UserSeen(n, user) in t
  {
    var k := AnswerByEvent(enrolled, t, Busy(n), |t|);
    Step(cfg, enrolled, t, k);
    assert t[k] == UserSeen(n, t[k].user);
  }

  lemma TimarIsInTheLog(enrolled: set<Address>, t: seq<Event>, m: Subject)
    requires TimarIn(m) in StateAt(enrolled, t, |t|).answers
    ensures m.ComposeProject? && TimarSeen(m.name, m.host) in t
  {
    var k := AnswerByEvent(enrolled, t, TimarIn(m), |t|);
    assert t[k] == TimarSeen(m.name, m.host);
  }

  lemma SkipIsInTheLog(cfg: Config, enrolled: set<Address>, t: seq<Event>, r: Row)
    requires Accepted(cfg, enrolled, t) && SkipIsDue(cfg, StateAt(enrolled, t, |t|), r)
    ensures SkipWasDue(cfg, enrolled, t, r)
  {
    StatesGrow(enrolled, t, 0, |t|);
    match r.error
    case OffByHand => var k := FoundDownByProbe(enrolled, t, r.subject.name, |t|);
    case InUse(_) => UserIsInTheLog(cfg, enrolled, t, r.subject.name);
    case IsTimar => TimarIsInTheLog(enrolled, t, r.subject);
    case _ =>
  }

  /** What the report says of a finished run is true: a skip has its reason, a failure is something
      that failed (or the machine is not configured), a success is an update that worked, and
      "woken, updated, shut down again" is a machine the run brought up and later shut down. */
  lemma ReportIsTrue(cfg: Config, enrolled: set<Address>, t: seq<Event>, rows: seq<Row>, r: Row)
    requires Accepted(cfg, enrolled, t) && AllBacked(cfg, Replay(cfg, enrolled, t).value, rows) && r in rows
    ensures r.skipped ==> r.success && SkipWasDue(cfg, enrolled, t, r)
    ensures !r.success ==> SawFailure(t, r.subject) || (r.subject.Machine? && r.subject.name !in ServerMap(cfg.servers))
    ensures r.success && !r.skipped ==> SawUpdate(t, r.subject)
    ensures r.success && !r.skipped && !r.wasRunning ==> r.subject.Machine? && WokenAndShutDown(t, r.subject.name)
    ensures r.success && !r.skipped && r.wasRunning && r.subject.Machine? ==>
              Probed(r.subject.name, true) in t || exists e :: e in t && e.HandedOff? && e.server.name == r.subject.name
  {
    EndState(cfg, enrolled, t);
    assert r in BackedRows(cfg, StateAt(enrolled, t, |t|));
    if r.skipped {
      SkipIsInTheLog(cfg, enrolled, t, r);
    } else if !r.success {
      if !r.error.NotConfigured? { FailedByEvent(enrolled, t, r.subject); }
    } else {
      UpdatedByCommand(enrolled, t, r.subject);
      if !r.wasRunning {
        var d := SleptByShutDown(enrolled, t, r.subject.name);
        var i := ShutDownWasBroughtUp(cfg, enrolled, t, d);
      } else if r.subject.Machine? {
        WasRunningShows(enrolled, t, r.subject.name);
      }
    }
  }

  lemma WasRunningShows(enrolled: set<Address>, t: seq<Event>, n: string)
    requires var w := StateAt(enrolled, t, |t|); n in w.foundUp || w.handedOff == Some(n)
    ensures Probed(n, true) in t || exists e :: e in t && e.HandedOff? && e.server.name == n
  {
    if n in StateAt(enrolled, t, |t|).foundUp {
      var k := FoundUpByProbe(enrolled, t, n, |t|);
    } else {
      var h := HandedOffByEvent(enrolled, t, |t|);
      assert t[h] in t;
    }
  }

  ghost predicate WokenAndShutDown(t: seq<Event>, n: string) {
    exists i, d :: 0 <= i < d < |t| && t[i].CameUp? && t[i].name == n && t[d] == ShutDown(n)
  }

  /** The machine was sent its update command, and counts as updated by the reply; timar's own host has
      its systemd run it. */
  ghost predicate GivenUpdate(t: seq<Event>, n: string) {
    exists k, u :: 0 <= k < u < |t| && t[k].Replied? &&
      match t[u]
      case Updated(s, ok) => s.name == n && t[k].q == Question(Machine(n), UpdateCommand) && (ok <==> Good(t[k].r))
      case HandedOff(s, _) => s.name == n && t[k].q == Question(Machine(n), StartUnit) && Good(t[k].r)
      case _ => false
  }

  /** The world kept the run from that: a connection, a wake or a command that comes before it went wrong. */
  ghost predicate KeptByReply(t: seq<Event>, n: string) {
    exists k :: 0 <= k < |t| && t[k].Replied? && !Good(t[k].r) && MachineOf(t[k].q.about) == n &&
      (BeforeUpdate(t[k].q.what) || t[k].q.what.Packet? || t[k].q.what.Wait?)
  }

  lemma AttemptShows(cfg: Config, enrolled: set<Address>, t: seq<Event>, n: string)
    requires Accepted(cfg, enrolled, t) && Attempted(n) in StateAt(enrolled, t, |t|).deeds
    ensures GivenUpdate(t, n)
  {
    var u := DeedByEvent(enrolled, t, Attempted(n), |t|);
    Step(cfg, enrolled, t, u);
    var a, k := LastReply(cfg, enrolled, t, u);
  }

  lemma NoAttemptShows(cfg: Config, enrolled: set<Address>, t: seq<Event>, n: string)
    requires Accepted(cfg, enrolled, t)
    requires var w := StateAt(enrolled, t, |t|); NoAnswer(n) in w.answers || KeptFrom(n) in w.answers
    ensures KeptByReply(t, n)
  {
    var answer := if NoAnswer(n) in StateAt(enrolled, t, |t|).answers then NoAnswer(n) else KeptFrom(n);
    var u := AnswerByEvent(enrolled, t, answer, |t|);
    Step(cfg, enrolled, t, u);
    var a, k := LastReply(cfg, enrolled, t, u);
  }

  ghost predicate LetBeShows(t: seq<Event>, s: Server) {
    || (s.platform.Windows? && exists user :: user != "" && UserSeen(s.name, user) in t)
    || (s.onDemand && s.wolMac.None? && Probed(s.name, false) in t)
  }

  /** No run does nothing: a machine that was handled, was in the run from the start and has something to
      run was sent its update command, unless a bad reply to an earlier call for it is in the log, somebody
      was at it, or it was found off and is switched on by hand. */
  lemma HandledShows(cfg: Config, enrolled: set<Address>, t: seq<Event>, rows: seq<Row>, s: Server)
    requires Accepted(cfg, enrolled, t) && Handled(cfg, Replay(cfg, enrolled, t).value, rows, s)
    requires HasWork(cfg, enrolled, s)
    ensures GivenUpdate(t, s.name) || KeptByReply(t, s.name) || LetBeShows(t, s)
    ensures CalledIfAsleep(cfg, t, s.name) || (s.onDemand && s.wolMac.None?)
  {
    EndState(cfg, enrolled, t);
    StatesGrow(enrolled, t, 0, |t|);
    if !(s.onDemand && s.wolMac.None?) {
      SleeperIsCalled(cfg, enrolled, t, s.name);
    }
    if LetBe(cfg, StateAt(enrolled, t, |t|), s) {
      LetBeIsInTheLog(cfg, enrolled, t, s);
    } else {
      TriedShows(cfg, enrolled, t, s.name);
    }
  }

  lemma TriedShows(cfg: Config, enrolled: set<Address>, t: seq<Event>, n: string)
    requires Accepted(cfg, enrolled, t) && UpdateTried(StateAt(enrolled, t, |t|), n)
    ensures GivenUpdate(t, n) || KeptByReply(t, n)
  {
    if Attempted(n) in StateAt(enrolled, t, |t|).deeds {
      AttemptShows(cfg, enrolled, t, n);
    } else {
      NoAttemptShows(cfg, enrolled, t, n);
    }
  }

  /** And a guest, whether off by hand or in use. */
  lemma GuestShows(cfg: Config, enrolled: set<Address>, t: seq<Event>, rows: seq<Row>, g: Server)
    requires Accepted(cfg, enrolled, t) && GuestHandled(cfg, Replay(cfg, enrolled, t).value, rows, g)
    requires HasWork(cfg, enrolled, g)
    ensures (GivenUpdate(t, g.name) || KeptByReply(t, g.name)) && CalledIfAsleep(cfg, t, g.name)
  {
    EndState(cfg, enrolled, t);
    StatesGrow(enrolled, t, 0, |t|);
    TriedShows(cfg, enrolled, t, g.name);
    SleeperIsCalled(cfg, enrolled, t, g.name);
  }

  /** A call for the machine went wrong that ends its step. */
  ghost predicate StepFailed(t: seq<Event>, n: string) {
    exists k :: 0 <= k < |t| && t[k].Replied? && !Good(t[k].r) && MachineOf(t[k].q.about) == n && EndsStep(t[k].q.what)
  }

  /** The job runs on it, and it has its own command or its platform has one. */
  predicate HasWork(cfg: Config, enrolled: set<Address>, s: Server) {
    Member(cfg, enrolled, s) && (s.command.Some? || !s.platform.OpenWrt?)
  }

  ghost predicate ReplyShows(t: seq<Event>, q: Question) {
    exists k :: 0 <= k < |t| && t[k].Replied? && t[k].q == q
  }

  /** A Windows machine was asked who is at it, and whether it wants a restart. */
  ghost predicate AsksShow(t: seq<Event>, n: string) {
    && ReplyShows(t, Question(Machine(n), BusyCheck))
    && (StepFailed(t, n) || ReplyShows(t, Question(Machine(n), RestartCheck)))
  }

  lemma AsksAreInTheLog(cfg: Config, enrolled: set<Address>, t: seq<Event>, s: Server)
    requires Accepted(cfg, enrolled, t) && AskedAround(StateAt(enrolled, t, |t|), s) && s.platform.Windows?
    ensures KeptByReply(t, s.name) || AsksShow(t, s.name)
  {
    var w := StateAt(enrolled, t, |t|);
    if NoAnswer(s.name) in w.answers || KeptFrom(s.name) in w.answers {
      NoAttemptShows(cfg, enrolled, t, s.name);
    } else {
      var k := AnswerByEvent(enrolled, t, WasTold(Question(Machine(s.name), BusyCheck)), |t|);
      if RaisedOn(s.name) in w.answers {
        StepFailureShows(cfg, enrolled, t, s.name);
      } else {
        k := AnswerByEvent(enrolled, t, WasTold(Question(Machine(s.name), RestartCheck)), |t|);
      }
    }
  }

  /** What the log shows of a host, and of the guests it starts, once it has been handled. */
  ghost predicate HostShows(cfg: Config, enrolled: set<Address>, t: seq<Event>, s: Server, own: Option<string>) {
    HasWork(cfg, enrolled, s) ==>
      && (GivenUpdate(t, s.name) || KeptByReply(t, s.name) || LetBeShows(t, s))
      && (CalledIfAsleep(cfg, t, s.name) || (s.onDemand && s.wolMac.None?))
      && (s.platform.Windows? ==> KeptByReply(t, s.name) || LetBeShows(t, s) || AsksShow(t, s.name))
      && (KeptByReply(t, s.name) || StepFailed(t, s.name)
          || (s.onDemand && s.wolMac.None? && Probed(s.name, false) in t)
          || forall g | g in s.guests && own != Some(g.name) && g.name in ServerMap(cfg.servers) &&
               HasWork(cfg, enrolled, ServerMap(cfg.servers)[g.name]) ::
               (GivenUpdate(t, g.name) || KeptByReply(t, g.name)) && CalledIfAsleep(cfg, t, g.name))
  }

  /** Of every host that has a turn in a fleet run, and of timar's own. */
  ghost predicate UpdatesShow(cfg: Config, enrolled: set<Address>, t: seq<Event>, own: Option<string>) {
    && (forall s | s in cfg.servers && s.ssh && s.name !in ManagedNames(cfg.servers) && own != Some(s.name) &&
        s.window.None? :: HostShows(cfg, enrolled, t, s, own))
    && (own.Some? && own.value in ServerMap(cfg.servers) &&
        HasWork(cfg, enrolled, ServerMap(cfg.servers)[own.value]) ==>
          GivenUpdate(t, own.value) || KeptByReply(t, own.value) || StepFailed(t, own.value))
  }

  lemma StepFailureShows(cfg: Config, enrolled: set<Address>, t: seq<Event>, n: string)
    requires Accepted(cfg, enrolled, t) && RaisedOn(n) in StateAt(enrolled, t, |t|).answers
    ensures StepFailed(t, n)
  {
    var u := AnswerByEvent(enrolled, t, RaisedOn(n), |t|);
    Step(cfg, enrolled, t, u);
    var a, k := LastReply(cfg, enrolled, t, u);
  }

  lemma GuestsShow(cfg: Config, enrolled: set<Address>, t: seq<Event>, rows: seq<Row>, s: Server, own: Option<string>)
    requires Accepted(cfg, enrolled, t) && HostHandled(cfg, Replay(cfg, enrolled, t).value, rows, s, own)
    requires HasWork(cfg, enrolled, s)
    ensures KeptByReply(t, s.name) || StepFailed(t, s.name) ||
            (s.onDemand && s.wolMac.None? && Probed(s.name, false) in t) ||
            GuestsHandled(cfg, Replay(cfg, enrolled, t).value, rows, s.guests, own)
  {
    EndState(cfg, enrolled, t);
    StatesGrow(enrolled, t, 0, |t|);
    var w := StateAt(enrolled, t, |t|);
    if GuestsExcused(cfg, w, s) {
      if RaisedOn(s.name) in w.answers {
        StepFailureShows(cfg, enrolled, t, s.name);
      } else if NoAnswer(s.name) in w.answers {
        NoAttemptShows(cfg, enrolled, t, s.name);
      } else {
        var k := FoundDownByProbe(enrolled, t, s.name, |t|);
      }
    }
  }

  lemma HostIsShown(cfg: Config, enrolled: set<Address>, t: seq<Event>, rows: seq<Row>, s: Server, own: Option<string>)
    requires Accepted(cfg, enrolled, t) && HostHandled(cfg, Replay(cfg, enrolled, t).value, rows, s, own)
    ensures HostShows(cfg, enrolled, t, s, own)
  {
    if HasWork(cfg, enrolled, s) {
      HandledShows(cfg, enrolled, t, rows, s);
      EndState(cfg, enrolled, t);
      if LetBe(cfg, StateAt(enrolled, t, |t|), s) {
        LetBeIsInTheLog(cfg, enrolled, t, s);
      } else if s.platform.Windows? {
        AsksAreInTheLog(cfg, enrolled, t, s);
      }
      GuestsShow(cfg, enrolled, t, rows, s, own);
      if GuestsHandled(cfg, Replay(cfg, enrolled, t).value, rows, s.guests, own) {
        forall g | g in s.guests && own != Some(g.name) && g.name in ServerMap(cfg.servers) &&
          HasWork(cfg, enrolled, ServerMap(cfg.servers)[g.name])
          ensures (GivenUpdate(t, g.name) || KeptByReply(t, g.name)) && CalledIfAsleep(cfg, t, g.name)
        {
          GuestShows(cfg, enrolled, t, rows, ServerMap(cfg.servers)[g.name]);
        }
      }
    }
  }

  lemma OwnIsShown(cfg: Config, enrolled: set<Address>, t: seq<Event>, rows: seq<Row>, s: Server)
    requires Accepted(cfg, enrolled, t) && OwnTried(cfg, Replay(cfg, enrolled, t).value, rows, s)
    requires HasWork(cfg, enrolled, s)
    ensures GivenUpdate(t, s.name) || KeptByReply(t, s.name) || StepFailed(t, s.name)
  {
    EndState(cfg, enrolled, t);
    StatesGrow(enrolled, t, 0, |t|);
    if RaisedOn(s.name) in StateAt(enrolled, t, |t|).answers {
      StepFailureShows(cfg, enrolled, t, s.name);
    } else {
      TriedShows(cfg, enrolled, t, s.name);
    }
  }

  lemma SeenToShows(cfg: Config, enrolled: set<Address>, t: seq<Event>, rows: seq<Row>, own: Option<string>)
    requires Accepted(cfg, enrolled, t) && SeenTo(cfg, Replay(cfg, enrolled, t).value, rows, own)
    ensures UpdatesShow(cfg, enrolled, t, own)
  {
    forall s | s in cfg.servers && s.ssh && s.name !in ManagedNames(cfg.servers) && own != Some(s.name) &&
               s.window.None?
      ensures HostShows(cfg, enrolled, t, s, own)
    {
      HostIsShown(cfg, enrolled, t, rows, s, own);
    }
    if own.Some? && HasWork(cfg, enrolled, ServerMap(cfg.servers)[own.value]) {
      OwnIsShown(cfg, enrolled, t, rows, ServerMap(cfg.servers)[own.value]);
    }
  }

  lemma LetBeIsInTheLog(cfg: Config, enrolled: set<Address>, t: seq<Event>, s: Server)
    requires Accepted(cfg, enrolled, t) && LetBe(cfg, StateAt(enrolled, t, |t|), s)
    requires HasWork(cfg, enrolled, s)
    ensures LetBeShows(t, s)
  {
    StatesGrow(enrolled, t, 0, |t|);
    if s.platform.Windows? && Busy(s.name) in StateAt(enrolled, t, |t|).answers {
      UserIsInTheLog(cfg, enrolled, t, s.name);
    } else {
      var k := FoundDownByProbe(enrolled, t, s.name, |t|);
    }
  }

  /** Every call goes well. */
  predicate GoodWorld(world: World) {
    Good(world.otherwise) && forall n | n in world.replies :: Good(world.replies[n])
  }

  /** In a world where every call goes well, what was handled is updated, unless somebody is at it. */
  lemma UpdatedInAGoodWorld(cfg: Config, world: World, enrolled: set<Address>, t: seq<Event>, rows: seq<Row>,
                            s: Server)
    requires Accepted(cfg, enrolled, t) && Honest(world, t) && GoodWorld(world)
    requires Handled(cfg, Replay(cfg, enrolled, t).value, rows, s)
    requires HasWork(cfg, enrolled, s)
    ensures || (exists e :: e in t && e.Updated? && e.server.name == s.name && e.ok)
            || (exists e :: e in t && e.HandedOff? && e.server.name == s.name)
            || (s.platform.Windows? && exists user :: user != "" && UserSeen(s.name, user) in t)
  {
    HandledShows(cfg, enrolled, t, rows, s);
    AllGood(world, t);
    if GivenUpdate(t, s.name) {
      var k, u :| 0 <= k < u < |t| && t[k].Replied? &&
        match t[u]
        case Updated(g, ok) =>
          g.name == s.name && t[k].q == Question(Machine(s.name), UpdateCommand) && (ok <==> Good(t[k].r))
        case HandedOff(g, _) => g.name == s.name && t[k].q == Question(Machine(s.name), StartUnit) && Good(t[k].r)
        case _ => false;
      assert t[u] in t;
    } else if Probed(s.name, false) in t {
      FoundDownByReply(cfg, enrolled, t, s.name);
    }
  }

  lemma AllGood(world: World, t: seq<Event>)
    requires Honest(world, t) && GoodWorld(world)
    ensures forall k | 0 <= k < |t| && t[k].Replied? :: Good(t[k].r)
  {
    forall k | 0 <= k < |t| && t[k].Replied?
      ensures Good(t[k].r)
    {
      HonestAt(world, t, k);
    }
  }

  lemma FoundDownByReply(cfg: Config, enrolled: set<Address>, t: seq<Event>, n: string)
    requires Accepted(cfg, enrolled, t) && Probed(n, false) in t
    ensures exists k :: 0 <= k < |t| && t[k].Replied? && t[k].q == Question(Machine(n), Probe) && !Good(t[k].r)
  {
    var u :| 0 <= u < |t| && t[u] == Probed(n, false);
    Step(cfg, enrolled, t, u);
    var a, k := LastReply(cfg, enrolled, t, u);
  }

  /** And of a run that was not stopped, the report has each compose project of the machine, in order,
      or says that docker could not be asked, unless moreover the machine did not come up or an
      exception ended its step. */
  lemma ProjectsShow(cfg: Config, enrolled: set<Address>, t: seq<Event>, rows: seq<Row>, s: Server)
    requires Accepted(cfg, enrolled, t) && Handled(cfg, Replay(cfg, enrolled, t).value, rows, s)
    requires HasWork(cfg, enrolled, s) && StopRequested !in t
    ensures || ProjectsListed(cfg, rows, s.name)
            || Trouble(Machine(s.name), true) in t || GaveUp(s.name) in t || LetBeShows(t, s)
  {
    EndState(cfg, enrolled, t);
    if LetBe(cfg, StateAt(enrolled, t, |t|), s) {
      LetBeIsInTheLog(cfg, enrolled, t, s);
    } else if !ProjectsListed(cfg, rows, s.name) {
      CutShortIsInTheLog(cfg, enrolled, t, rows, s.name);
    }
  }

  lemma CutShortIsInTheLog(cfg: Config, enrolled: set<Address>, t: seq<Event>, rows: seq<Row>, n: string)
    requires Accepted(cfg, enrolled, t)
    requires ProjectsTried(cfg, StateAt(enrolled, t, |t|), rows, n) && !ProjectsListed(cfg, rows, n)
    ensures StopRequested in t || Trouble(Machine(n), true) in t || GaveUp(n) in t
  {
    if StateAt(enrolled, t, |t|).stopped {
      var k := StoppedByRequest(enrolled, t, |t|);
    } else if RaisedOn(n) in StateAt(enrolled, t, |t|).answers {
      RaiseIsInTheLog(cfg, enrolled, t, n);
    } else {
      SilenceIsInTheLog(enrolled, t, n);
    }
  }

  lemma RaiseIsInTheLog(cfg: Config, enrolled: set<Address>, t: seq<Event>, n: string)
    requires Accepted(cfg, enrolled, t) && RaisedOn(n) in StateAt(enrolled, t, |t|).answers
    ensures Trouble(Machine(n), true) in t
  {
    var k := AnswerByEvent(enrolled, t, RaisedOn(n), |t|);
    Step(cfg, enrolled, t, k);
    assert t[k] == Trouble(Machine(n), true);
  }

  lemma SilenceIsInTheLog(enrolled: set<Address>, t: seq<Event>, n: string)
    requires NoAnswer(n) in StateAt(enrolled, t, |t|).answers
    ensures GaveUp(n) in t
  {
    var k := AnswerByEvent(enrolled, t, NoAnswer(n), |t|);
    assert t[k] == GaveUp(n);
  }

  /** The reply a project's row goes by. */
  ghost predicate ComposeReplied(t: seq<Event>, m: Subject, ok: bool) {
    exists k :: 0 <= k < |t| && t[k].Replied? && t[k].q == Question(m, Compose) && (ok <==> Good(t[k].r))
  }

  /** A project with a row that is no skip had its own update command, and the row says what came of it;
      and docker is blamed only where it would not list the containers. */
  lemma ProjectRowShows(cfg: Config, enrolled: set<Address>, t: seq<Event>, rows: seq<Row>, r: Row)
    requires Accepted(cfg, enrolled, t) && AllBacked(cfg, Replay(cfg, enrolled, t).value, rows) && r in rows
    requires !r.subject.Machine? && !r.skipped
    ensures r.subject.ComposeProject? ==> ComposeReplied(t, r.subject, r.success)
    ensures r.subject.DockerOn? ==>
              exists k :: 0 <= k < |t| && t[k].Replied? && t[k].q == Question(r.subject, ListContainers) &&
                !Good(t[k].r)
  {
    EndState(cfg, enrolled, t);
    assert r in BackedRows(cfg, StateAt(enrolled, t, |t|));
    if r.success {
      WorkShows(cfg, enrolled, t, r.subject);
    } else {
      FailureShows(cfg, enrolled, t, r.subject);
    }
  }

  lemma WorkShows(cfg: Config, enrolled: set<Address>, t: seq<Event>, m: Subject)
    requires Accepted(cfg, enrolled, t) && Worked(m) in StateAt(enrolled, t, |t|).deeds && !m.Machine?
    ensures m.ComposeProject? && ComposeReplied(t, m, true)
  {
    var u := DeedByEvent(enrolled, t, Worked(m), |t|);
    Step(cfg, enrolled, t, u);
    var a, k := LastReply(cfg, enrolled, t, u);
  }

  lemma FailureShows(cfg: Config, enrolled: set<Address>, t: seq<Event>, m: Subject)
    requires Accepted(cfg, enrolled, t) && FailedOn(m) in StateAt(enrolled, t, |t|).answers && !m.Machine?
    ensures m.ComposeProject? ==> ComposeReplied(t, m, false)
    ensures m.DockerOn? ==>
              exists k :: 0 <= k < |t| && t[k].Replied? && t[k].q == Question(m, ListContainers) && !Good(t[k].r)
  {
    var u := AnswerByEvent(enrolled, t, FailedOn(m), |t|);
    Step(cfg, enrolled, t, u);
    var a, k := LastReply(cfg, enrolled, t, u);
    Step(cfg, enrolled, t, a);
  }

  /** An exception that ends the whole run is that of sending a magic packet. */
  lemma CutIsInTheLog(cfg: Config, enrolled: set<Address>, t: seq<Event>) returns (s: Server, k: nat)
    requires Accepted(cfg, enrolled, t) && WasCut(cfg, Replay(cfg, enrolled, t).value)
    ensures s in cfg.servers
    ensures k < |t| && t[k].Replied? && t[k].q == Question(Machine(s.name), Packet) && !Good(t[k].r)
  {
    EndState(cfg, enrolled, t);
    s :| s in cfg.servers && RunCut(s.name) in Replay(cfg, enrolled, t).value.answers;
    var u := AnswerByEvent(enrolled, t, RunCut(s.name), |t|);
    k := PacketFailed(cfg, enrolled, t, s.name, u);
  }

  lemma PacketFailed(cfg: Config, enrolled: set<Address>, t: seq<Event>, n: string, u: nat) returns (k: nat)
    requires Accepted(cfg, enrolled, t) && u < |t| && Gives(StateAt(enrolled, t, u), t[u], RunCut(n))
    ensures k < |t| && t[k].Replied? && t[k].q == Question(Machine(n), Packet) && !Good(t[k].r)
  {
    Step(cfg, enrolled, t, u);
    var a;
    a, k := LastReply(cfg, enrolled, t, u);
    Step(cfg, enrolled, t, a);
    assert t[k].q.about.Machine?;
  }
}
