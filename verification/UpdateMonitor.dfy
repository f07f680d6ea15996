/** What an update run may do, as a monitor over the log of its actions.

    The monitor knows nothing of how the run is organised. It reads the events of one run in
    order and refuses the first one that breaks a rule: waking or updating a machine the job does
    not run on, updating a machine that is off or in use, shutting down one the run did not bring up,
    a step begun after a stop, anything but waiting after the hand-off. Every question and every reply
    is an event, and so is what the run makes of the reply: a machine counts as up, as updated or
    as failed only by the reply that says so. `Updater` proves that every run is accepted; the
    lemmas at the end say what acceptance means. */
module UpdateMonitor {
  import opened Fleet

  /** What a row of the report is about. */
  datatype Subject =
    | Machine(name: string)
    | ComposeProject(name: string, host: string)
    | DockerOn(host: string)

  /** The machine a row is about, or the one its project runs on. */
  function MachineOf(m: Subject): string {
    match m
    case Machine(n) => n
    case ComposeProject(_, h) => h
    case DockerOn(h) => h
  }

  /** What a call came back with: an exception, or an exit code and what was printed. A look, a
      connection or a wait that went well is a 0. */
  datatype Reply = Raised(message: string) | Reply(code: int, out: string, err: string)

  predicate Good(r: Reply) { r.Reply? && r.code == 0 }

  datatype Call =
    | Probe                          // is it up?
    | Login                          // an SSH connection
    | HostLogin                      // one to the hypervisor that starts it
    | Identify                       // which system it is
    | BusyCheck                      // who is at it
    | UpdateCommand
    | RestartCheck                   // does the update want a restart?
    | WaitBack                       // the wait after that restart
    | ListContainers
    | Compose                        // the update of one compose project
    | Prune
    | Packet                         // Wake-on-LAN
    | QmStart
    | Wait                           // the wait after either
    | PowerOff
    | InspectSelf                    // is timar's own container on it?
    | StartUnit                      // own host: its update, given to its systemd
    | UnitStatus                     // and how that goes

  datatype Question = Question(about: Subject, what: Call)

  /** What became of the handed-off update, as far as the waiting process could tell. */
  datatype HostAnswer = Reported(code: int, tail: string) | Gone | TimedOut

  predicate WentWell(a: HostAnswer) { a.Reported? && a.code == 0 }

  datatype Event =
    | StopRequested                                   // the operator, from another thread
    | EnrolledElsewhere(address: Address)             // a key login of another thread
    | Asked(q: Question)
    | Replied(q: Question, r: Reply)
    | LoggedIn(address: Address)                      // a key login of this run
    | Visited(name: string)                           // the work on one machine begins
    | Probed(name: string, up: bool)                  // found up or down, before touching it
    | SelfSought(name: string, here: bool)            // does timar itself run on it?
    | HostBegun(name: string)                         // no stop was seen at this boundary
    | GuestBegun(name: string)
    | ProjectBegun(project: string, host: string)
    | PacketSent(server: Server)                      // wake attempted
    | VmStarted(server: Server, hypervisor: string)   // `qm start` attempted
    | CameUp(name: string, on: Option<string>)        // and it answered; `on` is its hypervisor
    | GaveUp(name: string)                            // or it did not
    | UserSeen(name: string, user: string)            // somebody is at the machine
    | TimarSeen(project: string, host: string)        // the project timar itself runs in
    | Updated(server: Server, ok: bool)               // the update command, and whether it worked
    | ProjectUpdated(project: string, server: Server, ok: bool)
    | Restarted(server: Server)
    | ShutDown(name: string)                          // a shutdown attempt, heeded or not
    | HandedOff(server: Server, deadline: nat)        // own host: its systemd has the update
    | HandoffDone(answer: HostAnswer)                 // and what it reported back
    | RanOut(now: nat)                                // or the time was up
    | Trouble(about: Subject, raised: bool)           // a call for it failed; `raised` ends its step

  datatype Phase = Off | Running | Woken(on: Option<string>)

  /** The question being asked, or the last one that was answered. */
  datatype Line = Quiet | Waiting(q: Question) | Heard(q: Question, r: Reply)

  /** What the run did. */
  datatype Deed =
    | Called(name: string)           // sent a packet or a `qm start`
    | Attempted(name: string)        // given its update command
    | Worked(about: Subject)         // which succeeded
    | Rebooted(name: string)
    | Slept(name: string)            // brought up by the run and sent back to sleep

  /** What the run was told. */
  datatype Answer =
    | WasTold(q: Question)           // a reply came, good or bad
    | FailedOn(about: Subject)       // something asked for it failed
    | RaisedOn(name: string)         // and that was the end of its step
    | KeptFrom(name: string)         // before it could be given its update command
    | RunCut(name: string)           // or of the whole run
    | NoAnswer(name: string)         // called, and did not come up
    | Busy(name: string)
    | TimarIn(about: Subject)
    | RunsHere(name: string)
    | RunsElsewhere(name: string)

  datatype Watch = Watch(
    stopped: bool,
    handedOff: Option<string>,
    start: set<Address>,             // enrolled when the run began
    enrolled: set<Address>,
    phases: map<string, Phase>,      // machines probed so far
    visited: set<string>,
    foundUp: set<string>,            // what their visit found
    foundDown: set<string>,
    cameUp: set<string>,
    taken: set<string>,              // somebody is at it, as of its last visit
    restarts: set<string>,           // asked for by the last update, and still to be made
    deadline: nat,                   // of the hand-off
    line: Line,
    deeds: set<Deed>,
    answers: set<Answer>,
    hosts: seq<string>,              // steps begun, in order
    guests: seq<string>,
    projects: seq<string>)

  function Init(enrolled: set<Address>): Watch {
    Watch(false, None, enrolled, enrolled, map[], {}, {}, {}, {}, {}, {}, 0, Quiet, {}, {}, [], [], [])
  }

  predicate IsIn(w: Watch, name: string, phase: Phase) {
    name in w.phases && w.phases[name] == phase
  }

  /** The run itself brought it up and has not shut it down yet. */
  predicate Awake(w: Watch, name: string) {
    name in w.phases && w.phases[name].Woken?
  }

  predicate IsUp(w: Watch, name: string) {
    name in w.phases && !w.phases[name].Off?
  }

  /** Its own command, or its platform's; OpenWrt has none. */
  predicate HasCommand(s: Server) {
    s.command.Some? || s.platform.HasDefaultCommand()
  }

  /** Off on purpose, with nothing to wake it. */
  predicate OffByChoice(s: Server) {
    s.onDemand && s.wolMac.None?
  }

  /** A job runs on a server that is not watched only, not left out and enrolled. */
  predicate Member(cfg: Config, enrolled: set<Address>, s: Server) {
    s.ssh && s.name !in Excluded(cfg, Update) && s.address in enrolled
  }

  /** No machine is up only because of this run, and no restart is owed. */
  predicate AsFound(w: Watch) {
    (forall n | n in w.phases :: !w.phases[n].Woken?) && w.restarts == {}
  }

  predicate NoGuestAwakeOn(w: Watch, host: string) {
    forall n | n in w.phases :: w.phases[n] != Woken(Some(host))
  }

  /** May the machine be asked whether it is up? On its visit only once, if it is configured once. */
  predicate MayProbe(cfg: Config, w: Watch, n: string) {
    !Awake(w, n) && (Orderly(cfg.servers) && n in w.visited ==> n !in w.foundUp && n !in w.foundDown)
  }

  predicate MayCall(cfg: Config, w: Watch, s: Server) {
    && Member(cfg, w.enrolled, s) && IsIn(w, s.name, Off) && s.name in w.foundDown && HasCommand(s)
    && (Orderly(cfg.servers) ==> Called(s.name) !in w.deeds)
  }

  predicate MayComeUp(cfg: Config, w: Watch, n: string) {
    IsIn(w, n, Off) && Called(n) in w.deeds && n in w.foundDown && (Orderly(cfg.servers) ==> n !in w.cameUp)
  }

  /** The hypervisor a guest came up on is another machine, and up. */
  predicate HostIsUp(w: Watch, n: string, on: Option<string>) {
    match on
    case None => true
    case Some(h) => h != n && IsUp(w, h)
  }

  /** A machine of the job with something to run, visited, up and free. */
  predicate Ready(cfg: Config, w: Watch, s: Server) {
    Member(cfg, w.enrolled, s) && HasCommand(s) && IsFree(w, s.name)
  }

  predicate IsFree(w: Watch, n: string) {
    InReach(w, n) && n !in w.taken
  }

  /** The visit found it up, the run brought it up, or timar runs on it. */
  predicate IsLooked(w: Watch, n: string) {
    n in w.foundUp || Awake(w, n) || RunsHere(n) in w.answers
  }

  /** The machine is visited, and up as far as its visit knows. */
  predicate InReach(w: Watch, n: string) {
    IsUp(w, n) && n in w.visited && IsLooked(w, n)
  }

  /** The machine was visited and looked at: from then on it can fail. */
  predicate CanBeAsked(w: Watch, n: string) {
    n in w.visited && n in w.phases
  }

  /** A registered project that is not left out, and that timar itself was not seen in. */
  predicate IsWanted(cfg: Config, w: Watch, m: Subject) {
    && TimarIn(m) !in w.answers
    && exists e :: e in cfg.projects && m == ComposeProject(e.name, e.server) && !e.mode.Skip?
  }

  predicate MayAsk(cfg: Config, w: Watch, q: Question) {
    var n := MachineOf(q.about);
    if w.handedOff.Some? then
      q.about == Machine(w.handedOff.value) && (q.what.Login? || q.what.UnitStatus?)
    else
      match q.what
      case Probe => q.about.Machine?
      case Login => q.about.Machine? && IsUp(w, n) && (n in w.visited ==> IsLooked(w, n))
      case HostLogin => q.about.Machine? && CanBeAsked(w, n) && n in ManagedNames(cfg.servers)
      case InspectSelf => q.about.Machine? && IsUp(w, n)
      case Packet => q.about.Machine? && CanBeAsked(w, n) && Called(n) in w.deeds
      case QmStart => q.about.Machine? && CanBeAsked(w, n) && Called(n) in w.deeds
      case Wait => q.about.Machine? && CanBeAsked(w, n) && Called(n) in w.deeds
      case UpdateCommand => q.about.Machine? && IsFree(w, n)
      case Compose => InReach(w, n) && IsWanted(cfg, w, q.about)
      case ListContainers => q.about.DockerOn? && InReach(w, n)
      case Prune => q.about.DockerOn? && InReach(w, n)
      case _ => q.about.Machine? && InReach(w, n)
  }

  /** The last reply is to this question. */
  predicate Told(w: Watch, m: Subject, what: Call) {
    w.line.Heard? && w.line.q == Question(m, what)
  }

  predicate ToldYes(w: Watch, m: Subject, what: Call) {
    Told(w, m, what) && Good(w.line.r)
  }

  predicate ToldNo(w: Watch, m: Subject, what: Call) {
    Told(w, m, what) && !Good(w.line.r)
  }

  /** Calls inside a `try` around a machine's step. */
  predicate EndsStep(c: Call) {
    c.Login? || c.HostLogin? || c.BusyCheck? || c.UpdateCommand? || c.RestartCheck? || c.ListContainers? ||
    c.QmStart? || c.Packet? || c.StartUnit?
  }

  /** Those of them that come before the update command. */
  predicate BeforeUpdate(c: Call) {
    c.Login? || c.HostLogin? || c.BusyCheck? || c.QmStart? || c.StartUnit?
  }

  /** The reply is a failure of `m`: one that ends the step of its machine, as an exception, or one that
      is reported, and the step goes on. */
  predicate Fails(q: Question, r: Reply, m: Subject, raised: bool) {
    && !Good(r)
    && if raised then
         && m == Machine(MachineOf(q.about)) && EndsStep(q.what)
         && (r.Raised? || q.what.Login? || q.what.HostLogin?)
       else m == q.about && (q.what.WaitBack? || (r.Reply? && (q.what.ListContainers? || q.what.StartUnit?)))
  }

  predicate Allowed(cfg: Config, w: Watch, e: Event) {
    match e
    case StopRequested => true
    case EnrolledElsewhere(_) => true
    case Asked(q) => MayAsk(cfg, w, q)
    case Replied(q, _) => w.line == Waiting(q)
    case LoggedIn(_) => w.line.Heard? && (w.line.q.what.Login? || w.line.q.what.HostLogin?) && Good(w.line.r)
    case HandoffDone(_) => w.handedOff.Some? && Told(w, Machine(w.handedOff.value), UnitStatus) && w.line.r.Reply?
    case RanOut(now) => w.handedOff.Some? && w.deadline < now
    case _ => w.handedOff.None? && MayHappen(cfg, w, e)
  }

  /** The rules for everything before the hand-off. */
  predicate MayHappen(cfg: Config, w: Watch, e: Event) {
    match e
    case Visited(n) => Orderly(cfg.servers) ==> n !in w.visited
    case Probed(n, up) => MayProbe(cfg, w, n) && Told(w, Machine(n), Probe) && (up <==> Good(w.line.r))
    case SelfSought(n, here) =>
      if here then IsUp(w, n) && ToldYes(w, Machine(n), InspectSelf)
      else ToldNo(w, Machine(n), Probe) || ToldNo(w, Machine(n), Login) || Told(w, Machine(n), InspectSelf)
    case HostBegun(_) => !w.stopped && AsFound(w)
    case GuestBegun(_) => !w.stopped
    case ProjectBegun(_, _) => !w.stopped
    case PacketSent(s) => MayCall(cfg, w, s) && !OffByChoice(s)
    case VmStarted(s, h) => MayCall(cfg, w, s) && IsUp(w, h)
    case CameUp(n, on) => MayComeUp(cfg, w, n) && HostIsUp(w, n, on) && ToldYes(w, Machine(n), Wait)
    case GaveUp(n) =>
      && IsIn(w, n, Off) && Called(n) in w.deeds
      && (ToldNo(w, Machine(n), Wait) || ToldNo(w, Machine(n), Packet))
    case UserSeen(n, user) =>
      user != "" && Told(w, Machine(n), BusyCheck) && w.line.r.Reply? && w.line.r.out == user && n in w.visited
    case TimarSeen(_, _) => true
    case Updated(s, ok) =>
      && Ready(cfg, w, s)
      && Told(w, Machine(s.name), UpdateCommand) && (ok <==> Good(w.line.r))
    case ProjectUpdated(p, s, ok) =>
      && Member(cfg, w.enrolled, s) && IsUp(w, s.name) && s.name in w.visited
      && Told(w, ComposeProject(p, s.name), Compose) && (ok <==> Good(w.line.r))
    case Restarted(s) => IsUp(w, s.name) && s.name in w.restarts && s.platform.IsRestarted()
    case ShutDown(n) =>
      && Awake(w, n) && NoGuestAwakeOn(w, n)
      && (Told(w, Machine(n), PowerOff) || ToldNo(w, Machine(n), Login))
    case HandedOff(s, _) =>
      && Member(cfg, w.enrolled, s) && IsIn(w, s.name, Running) && s.name in w.visited && AsFound(w)
      && RunsHere(s.name) in w.answers && HasCommand(s) && ToldYes(w, Machine(s.name), StartUnit)
    case Trouble(m, raised) =>
      CanBeAsked(w, MachineOf(m)) && w.line.Heard? && Fails(w.line.q, w.line.r, m, raised)
    case _ => false
  }

  ghost function Permitted(cfg: Config, w: Watch): iset<Event> {
    iset e | Allowed(cfg, w, e)
  }

  function Outcome(w: Watch, m: Subject, ok: bool): Watch {
    if ok then w.(deeds := w.deeds + {Worked(m)}) else w.(answers := w.answers + {FailedOn(m)})
  }

  function AfterProbe(w: Watch, n: string, up: bool): Watch {
    w.(phases := w.phases[n := if up then Running else Off],
       foundUp := if up && n in w.visited then w.foundUp + {n} else w.foundUp,
       foundDown := if !up && n in w.visited then w.foundDown + {n} else w.foundDown)
  }

  /** A reply to "does the update want a restart?" leaves one to be made. */
  function AfterReply(w: Watch, q: Question, r: Reply): Watch {
    w.(line := Heard(q, r),
       answers := w.answers + {WasTold(q)},
       restarts := if q.what.RestartCheck? && r.Reply? && r.out == "restart" then w.restarts + {MachineOf(q.about)}
                   else w.restarts)
  }

  /** A failure, and what it cuts short. */
  function Failures(w: Watch, m: Subject, raised: bool): set<Answer> {
    var n := MachineOf(m);
    {FailedOn(m)} + (if raised then {RaisedOn(n)} else {}) +
    (if w.line.Heard? && BeforeUpdate(w.line.q.what) then {KeptFrom(n)} else {}) +
    (if w.line.Heard? && w.line.q.what.Packet? then {RunCut(n)} else {})
  }

  function Next(w: Watch, e: Event): Watch {
    match e
    case StopRequested => w.(stopped := true)
    case EnrolledElsewhere(a) => w.(enrolled := w.enrolled + {a})
    case LoggedIn(a) => w.(enrolled := w.enrolled + {a})
    case Asked(q) => w.(line := Waiting(q))
    case Replied(q, r) => AfterReply(w, q, r)
    case _ => AfterAct(w, e)
  }

  function AfterAct(w: Watch, e: Event): Watch {
    match e
    case Visited(n) => w.(visited := w.visited + {n}, taken := w.taken - {n}, line := Quiet)
    case Probed(n, up) => AfterProbe(w, n, up)
    case SelfSought(n, here) => w.(answers := w.answers + {if here then RunsHere(n) else RunsElsewhere(n)})
    case HostBegun(n) => w.(hosts := w.hosts + [n])
    case GuestBegun(n) => w.(guests := w.guests + [n])
    case ProjectBegun(p, _) => w.(projects := w.projects + [p])
    case PacketSent(s) => w.(deeds := w.deeds + {Called(s.name)})
    case VmStarted(s, _) => w.(deeds := w.deeds + {Called(s.name)})
    case CameUp(n, on) => w.(phases := w.phases[n := Woken(on)], cameUp := w.cameUp + {n})
    case GaveUp(n) => w.(answers := w.answers + {FailedOn(Machine(n)), NoAnswer(n)})
    case UserSeen(n, _) => w.(answers := w.answers + {Busy(n)}, taken := w.taken + {n})
    case TimarSeen(p, h) => w.(answers := w.answers + {TimarIn(ComposeProject(p, h))})
    case Updated(s, ok) => Outcome(w.(deeds := w.deeds + {Attempted(s.name)}), Machine(s.name), ok)
    case ProjectUpdated(p, s, ok) => Outcome(w, ComposeProject(p, s.name), ok)
    case Restarted(s) => w.(deeds := w.deeds + {Rebooted(s.name)}, restarts := w.restarts - {s.name})
    case ShutDown(n) => w.(phases := w.phases[n := Off], deeds := w.deeds + {Slept(n)})
    case HandedOff(s, d) => w.(handedOff := Some(s.name), deadline := d, deeds := w.deeds + {Attempted(s.name)})
    case HandoffDone(a) => if w.handedOff.Some? then Outcome(w, Machine(w.handedOff.value), WentWell(a)) else w
    case RanOut(_) => if w.handedOff.Some? then Outcome(w, Machine(w.handedOff.value), false) else w
    case Trouble(m, raised) =>
      w.(answers := w.answers + Failures(w, m, raised),
         restarts := if raised then w.restarts - {MachineOf(m)} else w.restarts)
    case _ => w
  }

  /** The event gives the run this answer. */
  predicate Gives(w: Watch, e: Event, a: Answer) {
    match a
    case WasTold(q) => e.Replied? && e.q == q
    case FailedOn(m) => GivesFailure(w, e, m)
    case RaisedOn(n) => e.Trouble? && e.raised && MachineOf(e.about) == n
    case KeptFrom(n) => e.Trouble? && MachineOf(e.about) == n && w.line.Heard? && BeforeUpdate(w.line.q.what)
    case RunCut(n) => e.Trouble? && MachineOf(e.about) == n && w.line.Heard? && w.line.q.what.Packet?
    case NoAnswer(n) => e == GaveUp(n)
    case Busy(n) => e.UserSeen? && e.name == n
    case TimarIn(m) => e.TimarSeen? && m == ComposeProject(e.project, e.host)
    case RunsHere(n) => e == SelfSought(n, true)
    case RunsElsewhere(n) => e == SelfSought(n, false)
  }

  predicate GivesFailure(w: Watch, e: Event, m: Subject) {
    match e
    case Trouble(about, _) => m == about
    case GaveUp(n) => m == Machine(n)
    case Updated(s, ok) => !ok && m == Machine(s.name)
    case ProjectUpdated(p, s, ok) => !ok && m == ComposeProject(p, s.name)
    case HandoffDone(a) => !WentWell(a) && w.handedOff.Some? && m == Machine(w.handedOff.value)
    case RanOut(_) => w.handedOff.Some? && m == Machine(w.handedOff.value)
    case _ => false
  }

  lemma NewAnswer(w: Watch, e: Event, a: Answer)
    requires a !in w.answers && a in Next(w, e).answers
    ensures Gives(w, e, a)
  {
  }

  /** The event is this deed. */
  predicate Does(w: Watch, e: Event, d: Deed) {
    match d
    case Called(n) => (e.PacketSent? || e.VmStarted?) && e.server.name == n
    case Attempted(n) => (e.Updated? || e.HandedOff?) && e.server.name == n
    case Worked(m) =>
      (match e
       case Updated(s, ok) => ok && m == Machine(s.name)
       case ProjectUpdated(p, s, ok) => ok && m == ComposeProject(p, s.name)
       case HandoffDone(a) => WentWell(a) && w.handedOff.Some? && m == Machine(w.handedOff.value)
       case _ => false)
    case Rebooted(n) => e.Restarted? && e.server.name == n
    case Slept(n) => e == ShutDown(n)
  }

  lemma NewDeed(w: Watch, e: Event, d: Deed)
    requires d !in w.deeds && d in Next(w, e).deeds
    ensures Does(w, e, d)
  {
  }

  lemma NextFlags(w: Watch, e: Event)
    ensures Next(w, e).stopped == (w.stopped || e.StopRequested?)
    ensures Next(w, e).enrolled ==
            w.enrolled + (if e.LoggedIn? || e.EnrolledElsewhere? then {e.address} else {})
    ensures Next(w, e).start == w.start
  {
  }

  /** What holds of every state of the monitor: finds are made on visits, wakes after finds. */
  ghost predicate InStep(w: Watch) {
    && w.start <= w.enrolled
    && w.foundUp <= w.visited && w.foundDown <= w.visited && w.cameUp <= w.foundDown
    && (forall n | n in w.phases && w.phases[n].Woken? :: n in w.cameUp)
    && (forall n :: Called(n) in w.deeds ==> n in w.foundDown)
    && (forall n | n in w.cameUp :: Called(n) in w.deeds)
    && WorkIsOnVisits(w)
  }

  /** What was done and what failed, was done and failed on a visit. */
  ghost predicate WorkIsOnVisits(w: Watch) {
    && (w.handedOff.Some? ==> w.handedOff.value in w.visited)
    && (forall m :: Worked(m) in w.deeds ==> MachineOf(m) in w.visited)
    && (forall m :: FailedOn(m) in w.answers ==> MachineOf(m) in w.visited)
  }

  lemma NextKeepsFinds(cfg: Config, w: Watch, e: Event)
    requires InStep(w) && e in Permitted(cfg, w)
    ensures var v := Next(w, e);
            && v.start <= v.enrolled
            && v.foundUp <= v.visited && v.foundDown <= v.visited && v.cameUp <= v.foundDown
  {
  }

  lemma NextKeepsWakes(cfg: Config, w: Watch, e: Event)
    requires InStep(w) && e in Permitted(cfg, w)
    ensures var v := Next(w, e);
            && (forall n | n in v.phases && v.phases[n].Woken? :: n in v.cameUp)
            && (forall n | n in v.cameUp :: Called(n) in v.deeds)
  {
  }

  lemma NextKeepsCalls(cfg: Config, w: Watch, e: Event)
    requires InStep(w) && e in Permitted(cfg, w)
    ensures forall n :: Called(n) in Next(w, e).deeds ==> n in Next(w, e).foundDown
  {
    forall n | Called(n) in Next(w, e).deeds
      ensures n in Next(w, e).foundDown
    {
      if Called(n) !in w.deeds {
        NewDeed(w, e, Called(n));
      } else {
        NextGrows(w, e);
      }
    }
  }

  lemma NextKeepsWork(cfg: Config, w: Watch, e: Event)
    requires InStep(w) && e in Permitted(cfg, w)
    ensures WorkIsOnVisits(Next(w, e))
  {
    NextGrows(w, e);
    forall m | Worked(m) in Next(w, e).deeds
      ensures MachineOf(m) in Next(w, e).visited
    {
      if Worked(m) !in w.deeds { NewDeed(w, e, Worked(m)); }
    }
    forall m | FailedOn(m) in Next(w, e).answers
      ensures MachineOf(m) in Next(w, e).visited
    {
      if FailedOn(m) !in w.answers { NewAnswer(w, e, FailedOn(m)); }
    }
  }

  lemma NextInStep(cfg: Config, w: Watch, e: Event)
    requires InStep(w) && e in Permitted(cfg, w)
    ensures InStep(Next(w, e))
  {
    NextKeepsFinds(cfg, w, e);
    NextKeepsWakes(cfg, w, e);
    NextKeepsCalls(cfg, w, e);
    NextKeepsWork(cfg, w, e);
  }

  /** The monitor's state after the events `t`, or `None` when it refused one of them. */
  function Replay(cfg: Config, enrolled: set<Address>, t: seq<Event>): Option<Watch> {
    if t == [] then Some(Init(enrolled))
    else
      var before := Replay(cfg, enrolled, t[..|t| - 1]);
      var e := t[|t| - 1];
      if before.Some? && Allowed(cfg, before.value, e) then Some(Next(before.value, e)) else None
  }

  lemma ReplaySnoc(cfg: Config, enrolled: set<Address>, t: seq<Event>, e: Event)
    requires Replay(cfg, enrolled, t).Some?
    requires Allowed(cfg, Replay(cfg, enrolled, t).value, e)
    ensures Replay(cfg, enrolled, t + [e]) == Some(Next(Replay(cfg, enrolled, t).value, e))
  {
    assert (t + [e])[..|t + [e]| - 1] == t;
  }

  /** The log of a whole run: accepted to its end, with nothing left on. */
  predicate Accepted(cfg: Config, enrolled: set<Address>, t: seq<Event>) {
    Replay(cfg, enrolled, t).Some? && AsFound(Replay(cfg, enrolled, t).value)
  }

  // -- the states of an accepted log -----------------------------------------

  /** The state before event `i`. */
  function StateAt(enrolled: set<Address>, t: seq<Event>, i: nat): Watch
    requires i <= |t|
  {
    if i == 0 then Init(enrolled) else Next(StateAt(enrolled, t, i - 1), t[i - 1])
  }

  lemma {:induction false} StateOfPrefix(enrolled: set<Address>, t: seq<Event>, i: nat)
    requires t != [] && i < |t|
    ensures StateAt(enrolled, t, i) == StateAt(enrolled, t[..|t| - 1], i)
  {
    if i > 0 {
      StateOfPrefix(enrolled, t, i - 1);
      assert t[..|t| - 1][i - 1] == t[i - 1];
    }
  }

  lemma {:induction false} ReplayIsState(cfg: Config, enrolled: set<Address>, t: seq<Event>)
    requires Replay(cfg, enrolled, t).Some?
    ensures Replay(cfg, enrolled, t).value == StateAt(enrolled, t, |t|)
  {
    if t != [] {
      ReplayIsState(cfg, enrolled, t[..|t| - 1]);
      StateOfPrefix(enrolled, t, |t| - 1);
    }
  }

  /** Event `i` of an accepted log was allowed in the state before it. */
  lemma {:induction false} Step(cfg: Config, enrolled: set<Address>, t: seq<Event>, i: nat)
    requires Replay(cfg, enrolled, t).Some? && i < |t|
    ensures Allowed(cfg, StateAt(enrolled, t, i), t[i])
    decreases |t|
  {
    var front := t[..|t| - 1];
    StateOfPrefix(enrolled, t, i);
    if i == |t| - 1 {
      ReplayIsState(cfg, enrolled, front);
    } else {
      Step(cfg, enrolled, front, i);
      assert front[i] == t[i];
    }
  }

  lemma {:induction false} InStepAt(cfg: Config, enrolled: set<Address>, t: seq<Event>, i: nat)
    requires Replay(cfg, enrolled, t).Some? && i <= |t|
    ensures InStep(StateAt(enrolled, t, i))
  {
    if i == 0 {
      InitInStep(enrolled);
    } else {
      InStepAt(cfg, enrolled, t, i - 1);
      InStepAfter(cfg, enrolled, t, i - 1);
    }
  }

  lemma InitInStep(enrolled: set<Address>)
    ensures InStep(Init(enrolled))
  {
  }

  lemma InStepAfter(cfg: Config, enrolled: set<Address>, t: seq<Event>, k: nat)
    requires Replay(cfg, enrolled, t).Some? && k < |t| && InStep(StateAt(enrolled, t, k))
    ensures InStep(StateAt(enrolled, t, k + 1))
  {
    Step(cfg, enrolled, t, k);
    NextInStep(cfg, StateAt(enrolled, t, k), t[k]);
  }

  lemma EndState(cfg: Config, enrolled: set<Address>, t: seq<Event>)
    requires Replay(cfg, enrolled, t).Some?
    ensures Replay(cfg, enrolled, t).value == StateAt(enrolled, t, |t|)
    ensures InStep(StateAt(enrolled, t, |t|))
  {
    ReplayIsState(cfg, enrolled, t);
    InStepAt(cfg, enrolled, t, |t|);
  }

  lemma ReplayInStep(cfg: Config, enrolled: set<Address>, t: seq<Event>)
    requires Replay(cfg, enrolled, t).Some?
    ensures InStep(Replay(cfg, enrolled, t).value) && Replay(cfg, enrolled, t).value.start == enrolled
  {
    EndState(cfg, enrolled, t);
    StatesGrow(enrolled, t, 0, |t|);
  }

  // -- what acceptance means -------------------------------------------------

  /** Between `i` and `j` the run neither brought `n` up nor shut it down. */
  ghost predicate Untouched(t: seq<Event>, n: string, i: int, j: int) {
    forall k | i < k < j && 0 <= k < |t| :: t[k] != ShutDown(n) && !(t[k].CameUp? && t[k].name == n)
  }

  lemma AwakeBefore(cfg: Config, w: Watch, e: Event, n: string)
    requires e in Permitted(cfg, w) && Awake(Next(w, e), n)
    ensures if e.CameUp? && e.name == n then e == CameUp(n, Next(w, e).phases[n].on)
            else Awake(w, n) && w.phases[n] == Next(w, e).phases[n] && e != ShutDown(n)
  {
  }

  lemma AwakeAfter(cfg: Config, w: Watch, e: Event, n: string, phase: Phase)
    requires e in Permitted(cfg, w) && IsIn(w, n, phase) && phase.Woken? && e != ShutDown(n)
    ensures IsIn(Next(w, e), n, phase) && !(e.CameUp? && e.name == n)
  {
  }

  lemma AwakeOneBefore(cfg: Config, enrolled: set<Address>, t: seq<Event>, n: string, phase: Phase, k: nat)
    requires Replay(cfg, enrolled, t).Some? && k < |t| && phase.Woken? && IsIn(StateAt(enrolled, t, k + 1), n, phase)
    ensures if t[k].CameUp? && t[k].name == n then t[k] == CameUp(n, phase.on)
            else IsIn(StateAt(enrolled, t, k), n, phase) && t[k] != ShutDown(n)
  {
    Step(cfg, enrolled, t, k);
    AwakeBefore(cfg, StateAt(enrolled, t, k), t[k], n);
  }

  /** A machine awake at `j` was brought up earlier, and not touched since. */
  lemma {:induction false} AwakeWasBroughtUp(cfg: Config, enrolled: set<Address>, t: seq<Event>, n: string,
                                             phase: Phase, j: nat)
      returns (i: nat)
    requires Replay(cfg, enrolled, t).Some? && j <= |t| && phase.Woken? && IsIn(StateAt(enrolled, t, j), n, phase)
    ensures i < j && t[i] == CameUp(n, phase.on)
    ensures Untouched(t, n, i, j)
    decreases j
  {
    AwakeOneBefore(cfg, enrolled, t, n, phase, j - 1);
    if t[j - 1].CameUp? && t[j - 1].name == n {
      i := j - 1;
    } else {
      i := AwakeWasBroughtUp(cfg, enrolled, t, n, phase, j - 1);
      UntouchedMore(t, n, i, j - 1);
    }
  }

  lemma UntouchedMore(t: seq<Event>, n: string, i: nat, j: nat)
    requires i < j < |t| && Untouched(t, n, i, j) && t[j] != ShutDown(n) && !(t[j].CameUp? && t[j].name == n)
    ensures Untouched(t, n, i, j + 1)
  {
  }

  lemma AwakeOneAfter(cfg: Config, enrolled: set<Address>, t: seq<Event>, n: string, phase: Phase, k: nat)
    requires Replay(cfg, enrolled, t).Some? && k < |t| && IsIn(StateAt(enrolled, t, k), n, phase) && phase.Woken?
    requires t[k] != ShutDown(n)
    ensures IsIn(StateAt(enrolled, t, k + 1), n, phase) && !(t[k].CameUp? && t[k].name == n)
  {
    Step(cfg, enrolled, t, k);
    AwakeAfter(cfg, StateAt(enrolled, t, k), t[k], n, phase);
  }

  /** A machine brought up at `i` stays awake until a shutdown of it. */
  lemma {:induction false} StaysAwake(cfg: Config, enrolled: set<Address>, t: seq<Event>, i: nat, j: nat)
      returns (d: nat)
    requires Replay(cfg, enrolled, t).Some? && i < j <= |t| && t[i].CameUp?
    ensures i < d <= j && (d < j ==> t[d] == ShutDown(t[i].name))
    ensures Untouched(t, t[i].name, i, d)
    ensures IsIn(StateAt(enrolled, t, d), t[i].name, Woken(t[i].on))
    decreases j
  {
    if j == i + 1 {
      d := j;
    } else {
      d := StaysAwake(cfg, enrolled, t, i, j - 1);
      if d == j - 1 && t[d] != ShutDown(t[i].name) {
        AwakeOneAfter(cfg, enrolled, t, t[i].name, Woken(t[i].on), d);
        UntouchedMore(t, t[i].name, i, d);
        d := j;
      }
    }
  }

  /** "As it was found", one half: every machine the run brings up is shut down later in the run,
      and between the two it is neither brought up nor shut down again. */
  lemma BroughtUpIsShutDown(cfg: Config, enrolled: set<Address>, t: seq<Event>, i: nat) returns (d: nat)
    requires Accepted(cfg, enrolled, t) && i < |t| && t[i].CameUp?
    ensures i < d < |t| && t[d] == ShutDown(t[i].name) && Untouched(t, t[i].name, i, d)
  {
    EndState(cfg, enrolled, t);
    d := StaysAwake(cfg, enrolled, t, i, |t|);
  }

  /** The other half: every shutdown undoes exactly one bring-up. */
  lemma ShutDownWasBroughtUp(cfg: Config, enrolled: set<Address>, t: seq<Event>, d: nat) returns (i: nat)
    requires Accepted(cfg, enrolled, t) && d < |t| && t[d].ShutDown?
    ensures i < d && t[i].CameUp? && t[i].name == t[d].name && Untouched(t, t[d].name, i, d)
  {
    Step(cfg, enrolled, t, d);
    i := AwakeWasBroughtUp(cfg, enrolled, t, t[d].name, StateAt(enrolled, t, d).phases[t[d].name], d);
  }

  lemma OffStep(cfg: Config, w: Watch, e: Event, n: string)
    requires e in Permitted(cfg, w) && IsIn(w, n, Off)
    requires e != Probed(n, true) && !(e.CameUp? && e.name == n)
    ensures IsIn(Next(w, e), n, Off)
  {
  }

  /** Off stays off until the machine is probed again or comes up. */
  lemma {:induction false} OffUntilSeen(cfg: Config, enrolled: set<Address>, t: seq<Event>, n: string, i: nat, j: nat)
    requires Replay(cfg, enrolled, t).Some? && i <= j <= |t| && IsIn(StateAt(enrolled, t, i), n, Off)
    requires forall k | i <= k < j :: t[k] != Probed(n, true) && !(t[k].CameUp? && t[k].name == n)
    ensures IsIn(StateAt(enrolled, t, j), n, Off)
    decreases j
  {
    if i < j {
      OffUntilSeen(cfg, enrolled, t, n, i, j - 1);
      Step(cfg, enrolled, t, j - 1);
      OffStep(cfg, StateAt(enrolled, t, j - 1), t[j - 1], n);
    }
  }

  /** In any configuration: no update of a machine after the run shut it down, unless it was seen up
      again, as it can be when it is listed twice. */
  lemma NoUpdateAfterShutDown(cfg: Config, enrolled: set<Address>, t: seq<Event>, d: nat, u: nat)
    requires Accepted(cfg, enrolled, t) && d < u < |t|
    requires t[d].ShutDown? && t[u].Updated? && t[u].server.name == t[d].name
    ensures exists k :: d < k < u && (t[k] == Probed(t[d].name, true) || (t[k].CameUp? && t[k].name == t[d].name))
  {
    Step(cfg, enrolled, t, u);
    if forall k | d < k < u :: t[k] != Probed(t[d].name, true) && !(t[k].CameUp? && t[k].name == t[d].name) {
      OffUntilSeen(cfg, enrolled, t, t[d].name, d + 1, u);
    }
  }

  /** In any configuration: a machine found running is shut down only after a later look found it
      off and the run brought it up itself. */
  lemma FoundRunningIsLeftAlone(cfg: Config, enrolled: set<Address>, t: seq<Event>, p: nat, d: nat)
    requires Accepted(cfg, enrolled, t) && p < d < |t|
    requires t[p].Probed? && t[p].up && t[d] == ShutDown(t[p].name)
    ensures exists i :: p < i < d && t[i].CameUp? && t[i].name == t[p].name
  {
    var i := ShutDownWasBroughtUp(cfg, enrolled, t, d);
    Step(cfg, enrolled, t, p);
    if i < p {
      var e := StaysAwake(cfg, enrolled, t, i, p);
    }
  }

  /** Guests first: what was started on a hypervisor is shut down before the hypervisor is. */
  lemma GuestsGoDownFirst(cfg: Config, enrolled: set<Address>, t: seq<Event>, i: nat, d: nat)
    requires Accepted(cfg, enrolled, t) && i < d < |t|
    requires t[i].CameUp? && t[i].on.Some? && t[d] == ShutDown(t[i].on.value)
    ensures exists k :: i < k < d && t[k] == ShutDown(t[i].name)
  {
    var k := StaysAwake(cfg, enrolled, t, i, d);
    Step(cfg, enrolled, t, d);
  }

  /** What no event ever undoes. */
  ghost predicate Grew(w: Watch, v: Watch) {
    && (w.stopped ==> v.stopped)
    && w.start == v.start && w.enrolled <= v.enrolled
    && w.visited <= v.visited && w.foundUp <= v.foundUp && w.foundDown <= v.foundDown && w.cameUp <= v.cameUp
    && w.deeds <= v.deeds && w.answers <= v.answers
  }

  lemma ActGrows(w: Watch, e: Event)
    ensures Grew(w, AfterAct(w, e))
  {
  }

  lemma NextGrows(w: Watch, e: Event)
    ensures Grew(w, Next(w, e))
  {
    ActGrows(w, e);
  }

  lemma {:induction false} StatesGrow(enrolled: set<Address>, t: seq<Event>, i: nat, j: nat)
    requires i <= j <= |t|
    ensures Grew(StateAt(enrolled, t, i), StateAt(enrolled, t, j))
    decreases j
  {
    if i < j {
      StatesGrow(enrolled, t, i, j - 1);
      NextGrows(StateAt(enrolled, t, j - 1), t[j - 1]);
    }
  }

  // -- when each machine is configured once ----------------------------------

  /** The visit of a machine finds it up or down, not both, and no visit is made twice. */
  lemma {:induction false} FoundOneWay(cfg: Config, enrolled: set<Address>, t: seq<Event>, j: nat)
    requires Replay(cfg, enrolled, t).Some? && Orderly(cfg.servers) && j <= |t|
    ensures StateAt(enrolled, t, j).foundUp !! StateAt(enrolled, t, j).foundDown
  {
    if j > 0 {
      FoundOneWay(cfg, enrolled, t, j - 1);
      Step(cfg, enrolled, t, j - 1);
    }
  }

  lemma VisitedOnce(cfg: Config, enrolled: set<Address>, t: seq<Event>, i: nat, j: nat)
    requires Accepted(cfg, enrolled, t) && Orderly(cfg.servers)
    requires i < |t| && j < |t| && t[i].Visited? && t[j] == t[i]
    ensures i == j
  {
    if i != j {
      var first, last := if i < j then i else j, if i < j then j else i;
      StatesGrow(enrolled, t, first + 1, last);
      Step(cfg, enrolled, t, last);
    }
  }

  /** A run brings a machine up at most once. */
  lemma BroughtUpOnce(cfg: Config, enrolled: set<Address>, t: seq<Event>, i: nat, j: nat)
    requires Accepted(cfg, enrolled, t) && Orderly(cfg.servers)
    requires i < |t| && j < |t| && t[i].CameUp? && t[j].CameUp? && t[j].name == t[i].name
    ensures i == j
  {
    if i != j {
      var first, last := if i < j then i else j, if i < j then j else i;
      StatesGrow(enrolled, t, first + 1, last);
      Step(cfg, enrolled, t, last);
    }
  }

  /** And shuts it down at most once: with `BroughtUpIsShutDown`, exactly once if it brought it up. */
  lemma ShutDownOnce(cfg: Config, enrolled: set<Address>, t: seq<Event>, d: nat, e: nat)
    requires Accepted(cfg, enrolled, t) && Orderly(cfg.servers)
    requires d < |t| && e < |t| && t[d].ShutDown? && t[e] == t[d]
    ensures d == e
  {
    var i := ShutDownWasBroughtUp(cfg, enrolled, t, d);
    var j := ShutDownWasBroughtUp(cfg, enrolled, t, e);
    BroughtUpOnce(cfg, enrolled, t, i, j);
  }

  /** The machine an event is about, when it looks at, wakes or updates one. */
  predicate Handles(e: Event, n: string) {
    match e
    case Probed(m, _) => m == n
    case PacketSent(s) => s.name == n
    case VmStarted(s, _) => s.name == n
    case CameUp(m, _) => m == n
    case Updated(s, _) => s.name == n
    case ProjectUpdated(_, s, _) => s.name == n
    case ShutDown(m) => m == n
    case HandedOff(s, _) => s.name == n
    case _ => false
  }

  /** What a shutdown shows of the machine: it was brought up, on a visit that had found it down. */
  lemma ShutDownShows(cfg: Config, enrolled: set<Address>, t: seq<Event>, d: nat)
    requires Accepted(cfg, enrolled, t) && d < |t| && t[d].ShutDown?
    ensures var w := StateAt(enrolled, t, d + 1);
            && t[d].name in w.cameUp && t[d].name in w.foundDown && t[d].name in w.visited
            && Called(t[d].name) in w.deeds && IsIn(w, t[d].name, Off)
  {
    Step(cfg, enrolled, t, d);
    InStepAt(cfg, enrolled, t, d);
  }

  /** Once a machine is put back to sleep, the run is done with it: it is not looked at, woken,
      started, updated or shut down again. */
  lemma DoneAfterShutDown(cfg: Config, enrolled: set<Address>, t: seq<Event>, d: nat, u: nat)
    requires Accepted(cfg, enrolled, t) && Orderly(cfg.servers) && d < u < |t| && t[d].ShutDown?
    ensures !Handles(t[u], t[d].name)
  {
    var n := t[d].name;
    ShutDownShows(cfg, enrolled, t, d);
    forall k | d < k <= u
      ensures t[k] != Probed(n, true) && t[k] != Probed(n, false) && !(t[k].CameUp? && t[k].name == n)
    {
      StatesGrow(enrolled, t, d + 1, k);
      Step(cfg, enrolled, t, k);
      NeitherSeenNorWoken(cfg, StateAt(enrolled, t, k), t[k], n);
    }
    OffUntilSeen(cfg, enrolled, t, n, d + 1, u);
    StatesGrow(enrolled, t, d + 1, u);
    Step(cfg, enrolled, t, u);
    NotHandled(cfg, StateAt(enrolled, t, u), t[u], n);
  }

  lemma NeitherSeenNorWoken(cfg: Config, w: Watch, e: Event, n: string)
    requires e in Permitted(cfg, w) && Orderly(cfg.servers)
    requires n in w.cameUp && n in w.foundDown && n in w.visited
    ensures e != Probed(n, true) && e != Probed(n, false) && !(e.CameUp? && e.name == n)
  {
  }

  lemma NotHandled(cfg: Config, w: Watch, e: Event, n: string)
    requires e in Permitted(cfg, w) && Orderly(cfg.servers) && IsIn(w, n, Off)
    requires n in w.cameUp && n in w.foundDown && n in w.visited && Called(n) in w.deeds
    ensures !Handles(e, n)
  {
  }

  lemma WakesWereFoundDown(cfg: Config, enrolled: set<Address>, t: seq<Event>, d: nat, n: string)
    requires Replay(cfg, enrolled, t).Some? && d < |t| && (t[d] == ShutDown(n) || (t[d].CameUp? && t[d].name == n))
    ensures n in StateAt(enrolled, t, d).foundDown
  {
    Step(cfg, enrolled, t, d);
    InStepAt(cfg, enrolled, t, d);
    WasFoundDown(cfg, StateAt(enrolled, t, d), t[d], n);
  }

  lemma WasFoundDown(cfg: Config, w: Watch, e: Event, n: string)
    requires e in Permitted(cfg, w) && InStep(w) && (e == ShutDown(n) || (e.CameUp? && e.name == n))
    ensures n in w.foundDown
  {
  }

  /** A machine its visit found running is never brought up and never shut down, before or after. */
  lemma FoundUpIsNeverShutDown(cfg: Config, enrolled: set<Address>, t: seq<Event>, v: nat, p: nat, d: nat)
    requires Accepted(cfg, enrolled, t) && Orderly(cfg.servers)
    requires v < p < |t| && t[p].Probed? && t[p].up && t[v] == Visited(t[p].name) && d < |t|
    ensures t[d] != ShutDown(t[p].name) && !(t[d].CameUp? && t[d].name == t[p].name)
  {
    var n := t[p].name;
    FoundUpForGood(enrolled, t, v, p);
    FoundOneWay(cfg, enrolled, t, |t|);
    if t[d] == ShutDown(n) || (t[d].CameUp? && t[d].name == n) {
      WakesWereFoundDown(cfg, enrolled, t, d, n);
      StatesGrow(enrolled, t, d, |t|);
    }
  }

  lemma FoundUpForGood(enrolled: set<Address>, t: seq<Event>, v: nat, p: nat)
    requires v < p < |t| && t[p].Probed? && t[p].up && t[v] == Visited(t[p].name)
    ensures t[p].name in StateAt(enrolled, t, |t|).foundUp
  {
    StatesGrow(enrolled, t, v + 1, p);
    StatesGrow(enrolled, t, p + 1, |t|);
  }

  // -- stops, hand-off, members ----------------------------------------------

  /** Once a stop is requested, no further host, guest or project begins. */
  lemma NoStepAfterStop(cfg: Config, enrolled: set<Address>, t: seq<Event>, i: nat, j: nat)
    requires Accepted(cfg, enrolled, t) && i < j < |t| && t[i] == StopRequested
    ensures !t[j].HostBegun? && !t[j].GuestBegun? && !t[j].ProjectBegun?
  {
    Step(cfg, enrolled, t, j);
    StatesGrow(enrolled, t, i + 1, j);
  }

  lemma HandedOffStep(cfg: Config, w: Watch, e: Event)
    requires e in Permitted(cfg, w) && w.handedOff.Some?
    ensures Next(w, e).handedOff == w.handedOff
  {
  }

  lemma {:induction false} StaysHandedOff(cfg: Config, enrolled: set<Address>, t: seq<Event>, i: nat, j: nat)
    requires Replay(cfg, enrolled, t).Some? && i < j <= |t| && t[i].HandedOff?
    ensures StateAt(enrolled, t, j).handedOff == Some(t[i].server.name)
    decreases j
  {
    if i < j - 1 {
      StaysHandedOff(cfg, enrolled, t, i, j - 1);
      Step(cfg, enrolled, t, j - 1);
      HandedOffStep(cfg, StateAt(enrolled, t, j - 1), t[j - 1]);
    }
  }

  /** After the hand-off the run only asks its own host how that goes: no wake, no guest started, nothing
      updated, nothing shut down, no step begun. */
  lemma OwnHostIsLast(cfg: Config, enrolled: set<Address>, t: seq<Event>, i: nat, j: nat)
    requires Accepted(cfg, enrolled, t) && i < j < |t| && t[i].HandedOff?
    ensures match t[j]
            case Asked(q) => q == Question(Machine(t[i].server.name), q.what) && (q.what.Login? || q.what.UnitStatus?)
            case _ =>
              t[j].StopRequested? || t[j].EnrolledElsewhere? || t[j].LoggedIn? || t[j].Replied? ||
              t[j].HandoffDone? || t[j].RanOut?
  {
    Step(cfg, enrolled, t, j);
    StaysHandedOff(cfg, enrolled, t, i, j);
  }

  /** A login with timar's key at the address, before event `j`. */
  ghost predicate KeyWorked(t: seq<Event>, a: Address, j: nat) {
    exists k :: 0 <= k < j && k < |t| && (t[k] == LoggedIn(a) || t[k] == EnrolledElsewhere(a))
  }

  lemma {:induction false} EnrolledByLogin(enrolled: set<Address>, t: seq<Event>, a: Address, j: nat)
    requires j <= |t| && a in StateAt(enrolled, t, j).enrolled
    ensures a in enrolled || KeyWorked(t, a, j)
    decreases j
  {
    if j > 0 && t[j - 1] != LoggedIn(a) && t[j - 1] != EnrolledElsewhere(a) {
      EnrolledByLogin(enrolled, t, a, j - 1);
    }
  }

  /** The machine an event acts on, when it wakes, starts, updates or hands off one. */
  function Target(e: Event): Option<Server> {
    match e
    case PacketSent(s) => Some(s)
    case VmStarted(s, _) => Some(s)
    case Updated(s, _) => Some(s)
    case ProjectUpdated(_, s, _) => Some(s)
    case HandedOff(s, _) => Some(s)
    case _ => None
  }

  /** Only machines with SSH, not left out, and reached with timar's key before that moment. None is woken
      or started that has nothing to run, and no packet is sent to one that is switched on by hand. */
  lemma OnlyMembersAreTouched(cfg: Config, enrolled: set<Address>, t: seq<Event>, j: nat)
    requires Accepted(cfg, enrolled, t) && j < |t| && Target(t[j]).Some?
    ensures var s := Target(t[j]).value;
            && s.ssh
            && (Update in cfg.exclude ==> s.name !in cfg.exclude[Update])
            && (s.address in enrolled || KeyWorked(t, s.address, j))
            && (!t[j].ProjectUpdated? ==> s.command.Some? || !s.platform.OpenWrt?)
            && (t[j].PacketSent? ==> !s.onDemand || s.wolMac.Some?)
  {
    Step(cfg, enrolled, t, j);
    EnrolledByLogin(enrolled, t, Target(t[j]).value.address, j);
  }

  lemma TakenStep(w: Watch, e: Event, n: string)
    requires n in w.taken && e != Visited(n)
    ensures n in Next(w, e).taken
  {
  }

  lemma {:induction false} StaysTaken(enrolled: set<Address>, t: seq<Event>, i: nat, u: nat)
    requires i < u <= |t| && t[i].UserSeen?
    requires forall k | i < k < u :: t[k] != Visited(t[i].name)
    ensures t[i].name in StateAt(enrolled, t, u).taken
    decreases u
  {
    if i < u - 1 {
      StaysTaken(enrolled, t, i, u - 1);
      TakenStep(StateAt(enrolled, t, u - 1), t[u - 1], t[i].name);
    }
  }

  /** A machine somebody was seen at is not sent its update command, unless it is visited once more. */
  lemma InUseIsLeftAlone(cfg: Config, enrolled: set<Address>, t: seq<Event>, i: nat, u: nat)
    requires Accepted(cfg, enrolled, t) && i < u < |t| && t[i].UserSeen?
    requires t[u] == Asked(Question(Machine(t[i].name), UpdateCommand))
    ensures exists v :: i < v < u && t[v] == Visited(t[i].name)
  {
    Step(cfg, enrolled, t, u);
    if forall v | i < v < u :: t[v] != Visited(t[i].name) {
      StaysTaken(enrolled, t, i, u);
    }
  }

  /** The restart of `n` is made, or an exception ends its step, before event `u`. */
  ghost predicate RestartedOrCut(t: seq<Event>, n: string, i: nat, u: nat) {
    exists k :: i < k < u && k < |t| &&
      ((t[k].Restarted? && t[k].server.name == n) || (t[k].Trouble? && t[k].raised && MachineOf(t[k].about) == n))
  }

  lemma OwedStep(w: Watch, e: Event, n: string)
    requires n in w.restarts
    requires !(e.Restarted? && e.server.name == n) && !(e.Trouble? && e.raised && MachineOf(e.about) == n)
    ensures n in Next(w, e).restarts
  {
  }

  lemma {:induction false} StaysOwed(enrolled: set<Address>, t: seq<Event>, n: string, i: nat, u: nat)
    requires i < u <= |t| && n in StateAt(enrolled, t, i + 1).restarts && !RestartedOrCut(t, n, i, u)
    ensures n in StateAt(enrolled, t, u).restarts
    decreases u
  {
    if i < u - 1 {
      StaysOwed(enrolled, t, n, i, u - 1);
      OwedStep(StateAt(enrolled, t, u - 1), t[u - 1], n);
    }
  }

  /** A restart the update asks for is made, before the next host begins or the run ends, unless an
      exception ends the step of its machine. */
  lemma RestartIsMade(cfg: Config, enrolled: set<Address>, t: seq<Event>, i: nat, u: nat)
    requires Accepted(cfg, enrolled, t) && i < u <= |t| && (u == |t| || t[u].HostBegun?)
    requires t[i].Replied? && t[i].q.what.RestartCheck? && t[i].r.Reply? && t[i].r.out == "restart"
    ensures RestartedOrCut(t, MachineOf(t[i].q.about), i, u)
  {
    if u < |t| {
      Step(cfg, enrolled, t, u);
    } else {
      EndState(cfg, enrolled, t);
    }
    if !RestartedOrCut(t, MachineOf(t[i].q.about), i, u) {
      StaysOwed(enrolled, t, MachineOf(t[i].q.about), i, u);
    }
  }

  /** And only a Windows machine is restarted, on a reply that asks for it. */
  lemma RestartWasAsked(cfg: Config, enrolled: set<Address>, t: seq<Event>, j: nat) returns (k: nat)
    requires Accepted(cfg, enrolled, t) && j < |t| && t[j].Restarted?
    ensures t[j].server.platform.Windows?
    ensures k < j && t[k].Replied? && t[k].q.what.RestartCheck? && MachineOf(t[k].q.about) == t[j].server.name
    ensures t[k].r.Reply? && t[k].r.out == "restart"
  {
    Step(cfg, enrolled, t, j);
    k := OwedByReply(enrolled, t, t[j].server.name, j);
  }

  lemma {:induction false} OwedByReply(enrolled: set<Address>, t: seq<Event>, n: string, j: nat) returns (k: nat)
    requires j <= |t| && n in StateAt(enrolled, t, j).restarts
    ensures k < j && t[k].Replied? && t[k].q.what.RestartCheck? && MachineOf(t[k].q.about) == n
    ensures t[k].r.Reply? && t[k].r.out == "restart"
    decreases j
  {
    k := j - 1;
    if n in StateAt(enrolled, t, k).restarts {
      k := OwedByReply(enrolled, t, n, k);
    }
  }

  /** A shutdown is a power-off command on a connection that was made, or the connection that failed. */
  lemma ShutDownWasTried(cfg: Config, enrolled: set<Address>, t: seq<Event>, d: nat) returns (k: nat)
    requires Accepted(cfg, enrolled, t) && d < |t| && t[d].ShutDown?
    ensures k < d && t[k].Replied? && Unasked(t, k, d)
    ensures || t[k].q == Question(Machine(t[d].name), PowerOff)
            || (t[k].q == Question(Machine(t[d].name), Login) && !Good(t[k].r))
  {
    Step(cfg, enrolled, t, d);
    var a;
    a, k := LastReply(cfg, enrolled, t, d);
  }

  /** No project is updated that is left out, or that timar itself was seen in. */
  lemma ProjectWasWanted(cfg: Config, enrolled: set<Address>, t: seq<Event>, j: nat)
    requires Accepted(cfg, enrolled, t) && j < |t| && t[j].Asked? && t[j].q.what.Compose?
    ensures exists e :: e in cfg.projects && t[j].q.about == ComposeProject(e.name, e.server) && !e.mode.Skip?
    ensures forall i | 0 <= i < j && t[i].TimarSeen? :: t[j].q.about != ComposeProject(t[i].project, t[i].host)
  {
    Step(cfg, enrolled, t, j);
    forall i | 0 <= i < j && t[i].TimarSeen?
      ensures t[j].q.about != ComposeProject(t[i].project, t[i].host)
    {
      StatesGrow(enrolled, t, i + 1, j);
    }
  }

  // -- where deeds and answers come from -------------------------------------

  lemma {:induction false} DeedByEvent(enrolled: set<Address>, t: seq<Event>, d: Deed, j: nat) returns (k: nat)
    requires j <= |t| && d in StateAt(enrolled, t, j).deeds
    ensures k < j && Does(StateAt(enrolled, t, k), t[k], d)
    decreases j
  {
    k := j - 1;
    if d in StateAt(enrolled, t, k).deeds {
      k := DeedByEvent(enrolled, t, d, k);
    } else {
      NewDeed(StateAt(enrolled, t, k), t[k], d);
    }
  }

  lemma {:induction false} AnswerByEvent(enrolled: set<Address>, t: seq<Event>, a: Answer, j: nat) returns (k: nat)
    requires j <= |t| && a in StateAt(enrolled, t, j).answers
    ensures k < j && Gives(StateAt(enrolled, t, k), t[k], a)
    decreases j
  {
    k := j - 1;
    if a in StateAt(enrolled, t, k).answers {
      k := AnswerByEvent(enrolled, t, a, k);
    } else {
      NewAnswer(StateAt(enrolled, t, k), t[k], a);
    }
  }

  lemma {:induction false} StoppedByRequest(enrolled: set<Address>, t: seq<Event>, j: nat) returns (k: nat)
    requires j <= |t| && StateAt(enrolled, t, j).stopped
    ensures k < j && t[k] == StopRequested
    decreases j
  {
    k := j - 1;
    if StateAt(enrolled, t, k).stopped {
      k := StoppedByRequest(enrolled, t, k);
    }
  }

  lemma {:induction false} FoundDownByProbe(enrolled: set<Address>, t: seq<Event>, n: string, j: nat) returns (k: nat)
    requires j <= |t| && n in StateAt(enrolled, t, j).foundDown
    ensures k < j && t[k] == Probed(n, false)
    decreases j
  {
    k := j - 1;
    if n in StateAt(enrolled, t, k).foundDown {
      k := FoundDownByProbe(enrolled, t, n, k);
    }
  }

  lemma {:induction false} FoundUpByProbe(enrolled: set<Address>, t: seq<Event>, n: string, j: nat) returns (k: nat)
    requires j <= |t| && n in StateAt(enrolled, t, j).foundUp
    ensures k < j && t[k] == Probed(n, true)
    decreases j
  {
    k := j - 1;
    if n in StateAt(enrolled, t, k).foundUp {
      k := FoundUpByProbe(enrolled, t, n, k);
    }
  }

  lemma {:induction false} HandedOffByEvent(enrolled: set<Address>, t: seq<Event>, j: nat) returns (h: nat)
    requires j <= |t| && StateAt(enrolled, t, j).handedOff.Some?
    ensures h < j && t[h].HandedOff? && StateAt(enrolled, t, j).handedOff == Some(t[h].server.name)
    decreases j
  {
    h := j - 1;
    if !t[h].HandedOff? {
      h := HandedOffByEvent(enrolled, t, h);
    }
  }

  /** A successful update command of `m` in the log: its own, or the one handed off. */
  ghost predicate SawUpdate(t: seq<Event>, m: Subject) {
    exists u :: 0 <= u < |t| &&
      match t[u]
      case Updated(s, true) => m == Machine(s.name)
      case ProjectUpdated(p, s, true) => m == ComposeProject(p, s.name)
      case HandoffDone(a) =>
        WentWell(a) && m.Machine? && exists h :: 0 <= h < u && t[h].HandedOff? && t[h].server.name == m.name
      case _ => false
  }

  lemma UpdatedByCommand(enrolled: set<Address>, t: seq<Event>, m: Subject)
    requires Worked(m) in StateAt(enrolled, t, |t|).deeds
    ensures SawUpdate(t, m)
  {
    var k := DeedByEvent(enrolled, t, Worked(m), |t|);
    if t[k].HandoffDone? {
      var h := HandedOffByEvent(enrolled, t, k);
    }
  }

  /** Something that failed for `m` in the log: its update command, the update handed off, or a
      connection, command or wait. */
  ghost predicate SawFailure(t: seq<Event>, m: Subject) {
    exists u :: 0 <= u < |t| &&
      match t[u]
      case Trouble(about, _) => m == about
      case GaveUp(n) => m == Machine(n)
      case Updated(s, false) => m == Machine(s.name)
      case ProjectUpdated(p, s, false) => m == ComposeProject(p, s.name)
      case HandoffDone(a) =>
        !WentWell(a) && m.Machine? && exists h :: 0 <= h < u && t[h].HandedOff? && t[h].server.name == m.name
      case RanOut(_) => m.Machine? && exists h :: 0 <= h < u && t[h].HandedOff? && t[h].server.name == m.name
      case _ => false
  }

  lemma FailedByEvent(enrolled: set<Address>, t: seq<Event>, m: Subject)
    requires FailedOn(m) in StateAt(enrolled, t, |t|).answers
    ensures SawFailure(t, m)
  {
    var k := AnswerByEvent(enrolled, t, FailedOn(m), |t|);
    if t[k].HandoffDone? || t[k].RanOut? {
      var h := HandedOffByEvent(enrolled, t, k);
    }
  }

  /** And nothing fails by the run's own word: each failure is what the last reply said, a bad one to a
      question about the same machine, on its visit and after a look at it. */
  lemma TroubleWasAsked(cfg: Config, enrolled: set<Address>, t: seq<Event>, u: nat)
      returns (v: nat, p: nat, a: nat, k: nat)
    requires Accepted(cfg, enrolled, t) && u < |t| && t[u].Trouble?
    ensures v < u && t[v] == Visited(MachineOf(t[u].about))
    ensures p < u && t[p].Probed? && t[p].name == MachineOf(t[u].about)
    ensures a < k < u && t[k].Replied? && t[a] == Asked(t[k].q) && Unasked(t, a, k) && Unasked(t, k, u)
    ensures Fails(t[k].q, t[k].r, t[u].about, t[u].raised)
  {
    Step(cfg, enrolled, t, u);
    v := VisitedByEvent(enrolled, t, MachineOf(t[u].about), u);
    p := SeenByProbe(cfg, enrolled, t, MachineOf(t[u].about), u);
    a, k := LastReply(cfg, enrolled, t, u);
  }

  /** Nothing is asked between `i` and `j`. */
  ghost predicate Unasked(t: seq<Event>, i: int, j: int) {
    forall x | i < x < j && 0 <= x < |t| :: !t[x].Asked? && !t[x].Replied?
  }

  /** What is on the line before event `j`, from the log alone. */
  function LineAt(t: seq<Event>, j: nat): Line
    requires j <= |t|
  {
    if j == 0 then Quiet
    else
      match t[j - 1]
      case Asked(q) => Waiting(q)
      case Replied(q, r) => Heard(q, r)
      case Visited(_) => Quiet
      case _ => LineAt(t, j - 1)
  }

  lemma {:induction false} LineIs(enrolled: set<Address>, t: seq<Event>, j: nat)
    requires j <= |t|
    ensures StateAt(enrolled, t, j).line == LineAt(t, j)
  {
    if j > 0 {
      LineIs(enrolled, t, j - 1);
      LineStays(StateAt(enrolled, t, j - 1), t[j - 1]);
    }
  }

  lemma LastReply(cfg: Config, enrolled: set<Address>, t: seq<Event>, j: nat) returns (a: nat, k: nat)
    requires Replay(cfg, enrolled, t).Some? && j <= |t| && StateAt(enrolled, t, j).line.Heard?
    ensures a < k < j && t[k].Replied? && t[a] == Asked(t[k].q) && Unasked(t, a, k) && Unasked(t, k, j)
    ensures StateAt(enrolled, t, j).line == Heard(t[k].q, t[k].r)
  {
    LineIs(enrolled, t, j);
    a, k := HeardAt(cfg, enrolled, t, j);
  }

  lemma {:induction false} HeardAt(cfg: Config, enrolled: set<Address>, t: seq<Event>, j: nat)
      returns (a: nat, k: nat)
    requires Replay(cfg, enrolled, t).Some? && j <= |t| && LineAt(t, j).Heard?
    ensures a < k < j && t[k].Replied? && t[a] == Asked(t[k].q) && Unasked(t, a, k) && Unasked(t, k, j)
    ensures LineAt(t, j) == Heard(t[k].q, t[k].r)
    decreases j
  {
    k := j - 1;
    if t[k].Replied? {
      ReplyWasAwaited(cfg, enrolled, t, k);
      LineIs(enrolled, t, k);
      a := WaitingAt(t, k);
    } else {
      a, k := HeardAt(cfg, enrolled, t, j - 1);
    }
  }

  lemma ReplyWasAwaited(cfg: Config, enrolled: set<Address>, t: seq<Event>, k: nat)
    requires Replay(cfg, enrolled, t).Some? && k < |t| && t[k].Replied?
    ensures StateAt(enrolled, t, k).line == Waiting(t[k].q)
  {
    Step(cfg, enrolled, t, k);
  }

  lemma LineStays(w: Watch, e: Event)
    ensures match e
            case Asked(q) => Next(w, e).line == Waiting(q)
            case Replied(q, r) => Next(w, e).line == Heard(q, r)
            case Visited(_) => Next(w, e).line == Quiet
            case _ => Next(w, e).line == w.line
  {
  }

  lemma LastQuestion(enrolled: set<Address>, t: seq<Event>, j: nat) returns (a: nat)
    requires j <= |t| && StateAt(enrolled, t, j).line.Waiting?
    ensures a < j && t[a] == Asked(StateAt(enrolled, t, j).line.q) && Unasked(t, a, j)
  {
    LineIs(enrolled, t, j);
    a := WaitingAt(t, j);
  }

  lemma {:induction false} WaitingAt(t: seq<Event>, j: nat) returns (a: nat)
    requires j <= |t| && LineAt(t, j).Waiting?
    ensures a < j && t[a] == Asked(LineAt(t, j).q) && Unasked(t, a, j)
    decreases j
  {
    a := j - 1;
    if !t[a].Asked? {
      a := WaitingAt(t, a);
    }
  }

  lemma {:induction false} VisitedByEvent(enrolled: set<Address>, t: seq<Event>, n: string, j: nat) returns (k: nat)
    requires j <= |t| && n in StateAt(enrolled, t, j).visited
    ensures k < j && t[k] == Visited(n)
    decreases j
  {
    k := j - 1;
    if n in StateAt(enrolled, t, k).visited {
      k := VisitedByEvent(enrolled, t, n, k);
    }
  }

  lemma {:induction false} SeenByProbe(cfg: Config, enrolled: set<Address>, t: seq<Event>, n: string, j: nat)
      returns (k: nat)
    requires Replay(cfg, enrolled, t).Some? && j <= |t| && n in StateAt(enrolled, t, j).phases
    ensures k < j && t[k].Probed? && t[k].name == n
    decreases j
  {
    k := j - 1;
    if n in StateAt(enrolled, t, k).phases {
      k := SeenByProbe(cfg, enrolled, t, n, k);
    } else {
      Step(cfg, enrolled, t, k);
    }
  }

  lemma SleptByShutDown(enrolled: set<Address>, t: seq<Event>, n: string) returns (d: nat)
    requires Slept(n) in StateAt(enrolled, t, |t|).deeds
    ensures d < |t| && t[d] == ShutDown(n)
  {
    d := DeedByEvent(enrolled, t, Slept(n), |t|);
  }

  // -- a machine that was never called ---------------------------------------

  /** The run has not called it, nor found it up on a visit, nor does timar run on it. */
  predicate OutOfReach(w: Watch, n: string) {
    n !in w.foundUp && RunsHere(n) !in w.answers && Called(n) !in w.deeds
  }

  /** Then nothing can be done with it, and nothing it says can keep the run from that: what is on the line
      is no call to it that comes before an update, but to its hypervisor, or it was made before the visit. */
  predicate LeftAsFound(w: Watch, n: string) {
    NothingDone(w, n) && NotOnTheLine(w, n)
  }

  predicate NothingDone(w: Watch, n: string) {
    Attempted(n) !in w.deeds && NoAnswer(n) !in w.answers && Busy(n) !in w.answers && w.handedOff != Some(n)
  }

  predicate NotOnTheLine(w: Watch, n: string) {
    || w.line.Quiet? || MachineOf(w.line.q.about) != n || n !in w.visited
    || !BeforeUpdate(w.line.q.what) || w.line.q.what.HostLogin?
  }

  lemma NothingIsDone(cfg: Config, w: Watch, e: Event, n: string)
    requires e in Permitted(cfg, w) && !Awake(w, n) && OutOfReach(w, n) && LeftAsFound(w, n)
    ensures NothingDone(Next(w, e), n)
  {
  }

  lemma StaysOffTheLine(cfg: Config, w: Watch, e: Event, n: string)
    requires e in Permitted(cfg, w) && !Awake(w, n) && OutOfReach(w, n) && LeftAsFound(w, n)
    ensures NotOnTheLine(Next(w, e), n)
  {
    LineStays(w, e);
  }

  lemma KeptByItsHost(cfg: Config, w: Watch, e: Event, n: string)
    requires e in Permitted(cfg, w) && LeftAsFound(w, n)
    requires KeptFrom(n) !in w.answers && KeptFrom(n) in Next(w, e).answers
    ensures w.line.Heard? && MachineOf(w.line.q.about) == n && w.line.q.what.HostLogin? && !Good(w.line.r)
  {
  }

  /** Its hypervisor could not be reached. */
  ghost predicate HostLoginFailed(t: seq<Event>, n: string) {
    exists k :: 0 <= k < |t| && t[k].Replied? && MachineOf(t[k].q.about) == n && t[k].q.what.HostLogin? &&
      !Good(t[k].r)
  }

  lemma {:induction false} NeverReached(cfg: Config, enrolled: set<Address>, t: seq<Event>, n: string, j: nat)
    requires Replay(cfg, enrolled, t).Some? && j <= |t| && OutOfReach(StateAt(enrolled, t, |t|), n)
    ensures LeftAsFound(StateAt(enrolled, t, j), n)
    ensures KeptFrom(n) in StateAt(enrolled, t, j).answers ==> HostLoginFailed(t, n)
    decreases j
  {
    if j > 0 {
      var w := StateAt(enrolled, t, j - 1);
      NeverReached(cfg, enrolled, t, n, j - 1);
      NotCalledYet(enrolled, t, n, j - 1);
      NotCalledYet(enrolled, t, n, j);
      Step(cfg, enrolled, t, j - 1);
      InStepAt(cfg, enrolled, t, j - 1);
      NothingIsDone(cfg, w, t[j - 1], n);
      StaysOffTheLine(cfg, w, t[j - 1], n);
      if KeptFrom(n) in Next(w, t[j - 1]).answers && KeptFrom(n) !in w.answers {
        KeptByItsHost(cfg, w, t[j - 1], n);
        var a, k := LastReply(cfg, enrolled, t, j - 1);
      }
    }
  }

  lemma NotCalledYet(enrolled: set<Address>, t: seq<Event>, n: string, j: nat)
    requires j <= |t| && OutOfReach(StateAt(enrolled, t, |t|), n)
    ensures OutOfReach(StateAt(enrolled, t, j), n)
  {
    StatesGrow(enrolled, t, j, |t|);
  }

  /** Its visit found it down. */
  ghost predicate FoundDown(t: seq<Event>, n: string) {
    exists v, p :: 0 <= v < p < |t| && t[v] == Visited(n) && t[p] == Probed(n, false)
  }

  lemma FoundDownSince(enrolled: set<Address>, t: seq<Event>, n: string)
    requires FoundDown(t, n)
    ensures n in StateAt(enrolled, t, |t|).foundDown
  {
    var v, p :| 0 <= v < p < |t| && t[v] == Visited(n) && t[p] == Probed(n, false);
    StatesGrow(enrolled, t, v + 1, p);
    StatesGrow(enrolled, t, p + 1, |t|);
  }

  /** A machine is called by a magic packet, or by its hypervisor. */
  ghost predicate CallShows(t: seq<Event>, n: string) {
    exists e :: e in t && (e.PacketSent? || e.VmStarted?) && e.server.name == n
  }

  /** A machine its visit found down was called before anything came of the visit, unless timar itself was
      found there. A guest is not called where its hypervisor could not be reached. */
  ghost predicate CalledIfAsleep(cfg: Config, t: seq<Event>, n: string) {
    Orderly(cfg.servers) && FoundDown(t, n) ==>
      || CallShows(t, n) || SelfSought(n, true) in t
      || (n in ManagedNames(cfg.servers) && HostLoginFailed(t, n))
  }

  lemma SleeperIsCalled(cfg: Config, enrolled: set<Address>, t: seq<Event>, n: string)
    requires Accepted(cfg, enrolled, t)
    requires var w := StateAt(enrolled, t, |t|);
             Attempted(n) in w.deeds || NoAnswer(n) in w.answers || KeptFrom(n) in w.answers || Busy(n) in w.answers
    ensures CalledIfAsleep(cfg, t, n)
  {
    var w := StateAt(enrolled, t, |t|);
    if Orderly(cfg.servers) && FoundDown(t, n) {
      FoundDownSince(enrolled, t, n);
      FoundOneWay(cfg, enrolled, t, |t|);
      if Called(n) in w.deeds {
        var k := DeedByEvent(enrolled, t, Called(n), |t|);
        assert t[k] in t;
      } else if RunsHere(n) in w.answers {
        var k := AnswerByEvent(enrolled, t, RunsHere(n), |t|);
        assert t[k] in t;
      } else {
        NeverReached(cfg, enrolled, t, n, |t|);
        HostLoginIsOfAGuest(cfg, enrolled, t, n);
      }
    }
  }

  lemma HostLoginIsOfAGuest(cfg: Config, enrolled: set<Address>, t: seq<Event>, n: string)
    requires Accepted(cfg, enrolled, t) && HostLoginFailed(t, n)
    ensures n in ManagedNames(cfg.servers)
  {
    var k :| 0 <= k < |t| && t[k].Replied? && MachineOf(t[k].q.about) == n && t[k].q.what.HostLogin? &&
      !Good(t[k].r);
    ReplyWasAwaited(cfg, enrolled, t, k);
    var a := LastQuestion(enrolled, t, k);
    Step(cfg, enrolled, t, a);
  }

  // -- the environment -------------------------------------------------------

  /** Everything a run meets and does not decide. What comes back for a question, whether the operator
      presses Stop and who else logs in may depend on how much has happened, so it is given for each
      place of the log. */
  datatype World = World(
    replies: map<nat, Reply>,
    otherwise: Reply,                  // the reply everywhere else
    stops: set<nat>,
    logins: map<nat, Address>,
    pauses: map<nat, nat>,             // seconds before that event
    me: Option<string>,                // the id of the container timar runs in
    timarIn: set<Subject>,             // the projects a listing shows that container in
    status: map<string, HostAnswer>,   // what a status of the hand-off says; anything else is "pending"
    timeout: map<string, nat>)         // `update_timeout` of the machines that have one
  {
    function ReplyAt(n: nat): Reply { if n in replies then replies[n] else otherwise }

    function StatusOf(out: string): Option<HostAnswer> { if out in status then Some(status[out]) else None }

    function TimeoutOf(name: string): nat { if name in timeout then timeout[name] else DEFAULT_UPDATE_TIMEOUT }
  }

  const DEFAULT_UPDATE_TIMEOUT := 1800

  /** The time after `n` events. */
  function Clock(world: World, n: nat): nat {
    if n == 0 then 0
    else Clock(world, n - 1) + 1 + if n - 1 in world.pauses then world.pauses[n - 1] else 0
  }

  lemma {:induction false} ClockTicks(world: World, i: nat, j: nat)
    requires i < j
    ensures Clock(world, i) < Clock(world, j)
  {
    if i < j - 1 {
      ClockTicks(world, i, j - 1);
    }
  }

  const HANDOFF_DELAY := 60

  /** The reply that says nothing yet about the handed-off update. */
  predicate NotYet(world: World, e: Event) {
    && e.Replied?
    && match e.q.what
       case Login => !Good(e.r)
       case UnitStatus => e.r.Raised? || world.StatusOf(e.r.out).None?
       case _ => false
  }

  /** After the events `t`, the world makes `e` so: it is the world's reply, stop, login or time, and the
      run takes the reply for what it is. */
  predicate SaidBy(world: World, t: seq<Event>, e: Event) {
    match e
    case Replied(_, r) => r == world.ReplyAt(|t|)
    case StopRequested => |t| in world.stops
    case EnrolledElsewhere(a) => |t| in world.logins && world.logins[|t|] == a
    case TimarSeen(p, h) => ComposeProject(p, h) in world.timarIn
    case SelfSought(_, here) =>
      here <==> t != [] && (var last := t[|t| - 1];
        last.Replied? && last.q.what.InspectSelf? && Good(last.r) && world.me == Some(last.r.out))
    case HandedOff(s, d) => d == Clock(world, |t|) + HANDOFF_DELAY + world.TimeoutOf(s.name)
    case HandoffDone(a) =>
      && t != [] && t[|t| - 1].Replied? && t[|t| - 1].r.Reply?
      && world.StatusOf(t[|t| - 1].r.out) == Some(a)
    case RanOut(now) => t != [] && NotYet(world, t[|t| - 1]) && now == Clock(world, |t|)
    case _ => true
  }

  /** What can come next: the monitor allows it and the world makes it so. */
  ghost function Possible(cfg: Config, world: World, t: seq<Event>, w: Watch): iset<Event> {
    iset e | e in Permitted(cfg, w) && SaidBy(world, t, e)
  }

  /** Nothing in the log is made up. */
  predicate Honest(world: World, t: seq<Event>) {
    t != [] ==> Honest(world, t[..|t| - 1]) && SaidBy(world, t[..|t| - 1], t[|t| - 1])
  }

  lemma HonestSnoc(world: World, t: seq<Event>, e: Event)
    requires Honest(world, t) && SaidBy(world, t, e)
    ensures Honest(world, t + [e])
  {
    assert (t + [e])[..|t + [e]| - 1] == t;
  }

  lemma {:induction false} HonestAt(world: World, t: seq<Event>, i: nat)
    requires Honest(world, t) && i < |t|
    ensures SaidBy(world, t[..i], t[i])
    decreases |t|
  {
    if i < |t| - 1 {
      HonestAt(world, t[..|t| - 1], i);
      assert t[..|t| - 1][..i] == t[..i];
    }
  }

  /** A stop that is seen was asked for. */
  lemma StopWasAsked(world: World, enrolled: set<Address>, t: seq<Event>) returns (k: nat)
    requires Honest(world, t) && StateAt(enrolled, t, |t|).stopped
    ensures k < |t| && t[k] == StopRequested && k in world.stops
  {
    k := StoppedByRequest(enrolled, t, |t|);
    HonestAt(world, t, k);
  }
}
