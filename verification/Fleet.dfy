/** The configured fleet: the part of `config.yaml` that the jobs, the dashboard and the
    settings pages all read. */
module Fleet {
  datatype Option<+T> = None | Some(value: T)

  /** An SSH address. Two spellings of one address (`h` and `h:22`) are one value here. */
  datatype Address = Address(host: string, port: int)

  /** One entry of a hypervisor's `manages_vms`. */
  datatype Guest = Guest(vmId: int, name: string, onDemand: bool)

  datatype Platform = Linux | OpenWrt | Proxmox | Windows
  {
    /** OpenWrt has no safe default update command. */
    predicate HasDefaultCommand() { this != OpenWrt }

    /** Only Windows asks whether somebody is at the machine, and only Windows is restarted. */
    predicate AsksBeforeUpdating() { this == Windows }
    predicate IsRestarted() { this == Windows }
  }

  /** A window of the day, in minutes after midnight; see `UpdateWindow`. */
  datatype Window = Window(start: int, end: int)

  /** A server entry. `handWritten` is every key the server form does not own, apart from
      `manages_vms` (`guests`) and `wol_relay`, which are modelled as themselves. */
  datatype Server = Server(
    name: string,
    address: Address,
    platform: Platform,
    ssh: bool,
    wolMac: Option<string>,
    onDemand: bool,
    command: Option<string>,
    guests: seq<Guest>,
    wolRelay: Option<string>,
    window: Option<Window>,
    everyDays: int,
    handWritten: map<string, string>)

  datatype ProjectMode = Pull | Custom | Skip

  /** A compose project registered on a server. */
  datatype Project = Project(name: string, server: string, mode: ProjectMode)

  datatype Job = LogSweep | Update

  datatype Config = Config(
    servers: seq<Server>,
    projects: seq<Project>,
    exclude: map<Job, seq<string>>)

  function Names(servers: seq<Server>): (names: seq<string>)
    ensures |names| == |servers|
    ensures forall i | 0 <= i < |servers| :: names[i] == servers[i].name
  {
    seq(|servers|, i requires 0 <= i < |servers| => servers[i].name)
  }

  function GuestNames(guests: seq<Guest>): (names: seq<string>)
    ensures |names| == |guests|
    ensures forall i | 0 <= i < |guests| :: names[i] == guests[i].name
  {
    seq(|guests|, i requires 0 <= i < |guests| => guests[i].name)
  }

  /** `{s["name"]: s for s in servers}`: the last entry of a name wins. */
  function ServerMap(servers: seq<Server>): (m: map<string, Server>)
    ensures forall n | n in m :: m[n].name == n && m[n] in servers
    ensures forall s | s in servers :: s.name in m
  {
    if servers == [] then map[]
    else
      var last := servers[|servers| - 1];
      ServerMap(servers[..|servers| - 1])[last.name := last]
  }

  /** The machines some hypervisor starts: they are updated by its run, not by their own. */
  function ManagedNames(servers: seq<Server>): (names: set<string>)
    ensures forall n :: n in names <==>
      exists i, j :: 0 <= i < |servers| && 0 <= j < |servers[i].guests| && servers[i].guests[j].name == n
  {
    set i, j | 0 <= i < |servers| && 0 <= j < |servers[i].guests| :: servers[i].guests[j].name
  }

  function Excluded(cfg: Config, job: Job): (names: seq<string>)
    ensures job !in cfg.exclude ==> names == []
  {
    if job in cfg.exclude then cfg.exclude[job] else []
  }

  /** The projects registered on a server, in the order of the list. */
  function Registered(projects: seq<Project>, name: string): (entries: seq<Project>)
    ensures forall e :: e in entries <==> e in projects && e.server == name
  {
    if projects == [] then []
    else (if projects[0].server == name then [projects[0]] else []) + Registered(projects[1..], name)
  }

  predicate UniqueNames(servers: seq<Server>) {
    forall i, j | 0 <= i < j < |servers| :: servers[i].name != servers[j].name
  }

  /** No two hypervisors list the same guest. */
  predicate OneOwner(servers: seq<Server>) {
    forall i, k, g, h | 0 <= i < |servers| && 0 <= k < |servers| && i != k && g in servers[i].guests &&
      h in servers[k].guests ::
      g.name != h.name
  }

  predicate GuestsOnce(guests: seq<Guest>) {
    forall i, j | 0 <= i < j < |guests| :: guests[i].name != guests[j].name
  }

  /** Each machine is configured once, and started by one hypervisor, once. The settings pages keep
      it so; a configuration written by hand need not be. */
  predicate Orderly(servers: seq<Server>) {
    UniqueNames(servers) && OneOwner(servers) && forall s | s in servers :: GuestsOnce(s.guests)
  }

  /** `next(s for s in cfg["servers"] if s["name"] == name)` */
  function Find(servers: seq<Server>, name: string): (r: Option<Server>)
    ensures r.Some? ==> r.value in servers && r.value.name == name
    ensures r.None? ==> forall s | s in servers :: s.name != name
  {
    if servers == [] then None
    else if servers[0].name == name then Some(servers[0])
    else Find(servers[1..], name)
  }

  lemma {:induction false} FindsTheOne(servers: seq<Server>, s: Server)
    requires UniqueNames(servers) && s in servers
    ensures Find(servers, s.name) == Some(s)
  {
    if servers[0] != s {
      var i :| 0 <= i < |servers| && servers[i] == s;
      assert servers[1..][i - 1] == s;
      FindsTheOne(servers[1..], s);
    }
  }
}
