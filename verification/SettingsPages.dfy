/** The handlers of the settings pages: they rewrite the stored lists step by step. */
module SettingsPages {
  import opened Fleet
  import opened Rename
  import opened Settings

  /** The parts of `config.yaml` these handlers write. */
  class Store {
    var servers: seq<Server>
    var projects: seq<Project>
    var exclude: map<Job, seq<string>>

    function Contents(): Config
      reads this
    {
      Config(servers, projects, exclude)
    }

    constructor (cfg: Config)
      ensures Contents() == cfg
    {
      servers, projects, exclude := cfg.servers, cfg.projects, cfg.exclude;
    }

    method RenameGuests(guests: seq<Guest>, from: string, to: string) returns (r: seq<Guest>)
      ensures r == SubGuests(guests, from, to)
    {
      r := guests;
      for i := 0 to |guests|
        invariant |r| == |guests|
        invariant forall k | 0 <= k < i :: r[k] == guests[k].(name := Sub(guests[k].name, from, to))
        invariant forall k | i <= k < |guests| :: r[k] == guests[k]
      {
        if r[i].name == from {
          r := r[i := r[i].(name := to)];
        }
      }
    }

    /** `_rename_references` */
    method RenameReferences(from: string, to: string)
      modifies this`servers
      ensures servers == SubRefsAll(old(servers), from, to)
    {
      ghost var was := servers;
      for i := 0 to |servers|
        invariant |servers| == |was|
        invariant forall k | 0 <= k < i :: servers[k] == SubRefs(was[k], from, to)
        invariant forall k | i <= k < |was| :: servers[k] == was[k]
      {
        var guests := RenameGuests(servers[i].guests, from, to);
        servers := servers[i := servers[i].(guests := guests)];
        if servers[i].wolRelay == Some(from) {
          servers := servers[i := servers[i].(wolRelay := Some(to))];
        }
      }
      assert servers == SubRefsAll(was, from, to);
    }

    /** `_relink_guest`: out of every guest list, then into the one the link names. */
    method RelinkGuest(name: string, link: LinkCheck, onDemand: bool)
      modifies this`servers
      ensures servers == RelinkedAll(old(servers), name, link, onDemand)
    {
      ghost var was := servers;
      for i := 0 to |servers|
        invariant |servers| == |was|
        invariant forall k | 0 <= k < i :: servers[k] == was[k].(guests := Without(was[k].guests, name))
        invariant forall k | i <= k < |was| :: servers[k] == was[k]
      {
        servers := servers[i := servers[i].(guests := Without(servers[i].guests, name))];
      }
      forall k | 0 <= k < |was| && !link.LinkTo?
        ensures servers[k] == Relinked(was[k], name, link, onDemand)
      {
        assert Without(was[k].guests, name) + [] == Without(was[k].guests, name);
      }
      if link.LinkTo? {
        for i := 0 to |servers|
          invariant |servers| == |was|
          invariant forall k | 0 <= k < i :: servers[k] == Relinked(was[k], name, link, onDemand)
          invariant forall k | i <= k < |was| :: servers[k] == was[k].(guests := Without(was[k].guests, name))
        {
          if servers[i].name == link.hypervisor {
            servers := servers[i := servers[i].(guests := servers[i].guests + [Guest(link.vmId, name, onDemand)])];
          } else {
            assert Without(was[i].guests, name) + [] == Without(was[i].guests, name);
          }
        }
      }
      assert servers == RelinkedAll(was, name, link, onDemand);
    }

    method RenameProjects(from: string, to: string)
      modifies this`projects
      ensures projects == SubProjects(old(projects), from, to)
    {
      ghost var was := projects;
      for i := 0 to |projects|
        invariant |projects| == |was|
        invariant forall k | 0 <= k < i :: projects[k] == was[k].(server := Sub(was[k].server, from, to))
        invariant forall k | i <= k < |was| :: projects[k] == was[k]
      {
        if projects[i].server == from {
          projects := projects[i := projects[i].(server := to)];
        }
      }
      assert projects == SubProjects(was, from, to);
    }

    method ReplaceEntry(original: string, entry: Server)
      modifies this`servers
      ensures servers == Replaced(old(servers), original, entry)
    {
      ghost var was := servers;
      for i := 0 to |servers|
        invariant |servers| == |was|
        invariant forall k | 0 <= k < i ::
                  servers[k] == if was[k].name == original then Carry(entry, was[k]) else was[k]
        invariant forall k | i <= k < |was| :: servers[k] == was[k]
      {
        if servers[i].name == original {
          servers := servers[i := Carry(entry, servers[i])];
        }
      }
      assert servers == Replaced(was, original, entry);
    }

    /** `save_server` */
    method SaveServer(form: Form, original: Option<string>) returns (saved: bool)
      modifies this
      ensures saved == Passes(form, old(servers), original)
      ensures Contents() == Apply(old(Contents()), Save(form, original))
      ensures WellFormed(old(servers), old(exclude)) && !LinksAVanished(old(Contents()), Save(form, original)) ==>
                WellFormed(servers, exclude)
    {
      ghost var was := Contents();
      saved := Passes(form, servers, original);
      if saved {
        var link := CheckLink(form, servers, original);
        if original.Some? {
          ReplaceEntry(original.value, Entry(form));
          if form.name != original.value {
            RenameReferences(original.value, form.name);
            RenameProjects(original.value, form.name);
            exclude := ExcludeRenamed(exclude, original.value, form.name);
          }
          EditInSteps(form, was.servers, original.value);
        } else {
          servers := servers + [Entry(form)];
        }
        RelinkGuest(form.name, link, form.box);
      }
      if WellFormed(was.servers, was.exclude) {
        ChangeKeepsWellFormed(was, Save(form, original));
      }
    }

    method KeepOthers(name: string)
      modifies this`servers
      ensures servers == Others(old(servers), name)
    {
      var kept: seq<Server> := [];
      for i := 0 to |servers|
        invariant kept == Others(servers[..i], name)
      {
        assert servers[..i + 1][..i] == servers[..i];
        if servers[i].name != name {
          kept := kept + [servers[i]];
        }
      }
      assert servers[..|servers|] == servers;
      servers := kept;
    }

    method DropGuest(name: string)
      modifies this`servers
      ensures servers == WithoutAll(old(servers), name)
    {
      ghost var was := servers;
      for i := 0 to |servers|
        invariant |servers| == |was|
        invariant forall k | 0 <= k < i :: servers[k] == was[k].(guests := Without(was[k].guests, name))
        invariant forall k | i <= k < |was| :: servers[k] == was[k]
      {
        servers := servers[i := servers[i].(guests := Without(servers[i].guests, name))];
      }
      assert servers == WithoutAll(was, name);
    }

    method RemoveServer(name: string)
      modifies this`servers
      ensures servers == AfterDelete(old(servers), name)
    {
      ghost var was := servers;
      var removed := Find(servers, name);
      KeepOthers(name);
      if removed.Some? {
        DropGuest(name);
        OthersThenWithout(was, name);
      } else {
        NoOthersLost(was, name);
      }
    }

    /** `delete_server` */
    method DeleteServer(name: string)
      modifies this
      ensures Contents() == Apply(old(Contents()), Delete(name))
      ensures WellFormed(old(servers), old(exclude)) ==> WellFormed(servers, exclude) && name !in Names(servers)
    {
      ghost var was := Contents();
      RemoveServer(name);
      exclude := ExcludeForgotten(exclude, name);
      if WellFormed(was.servers, was.exclude) {
        DeleteKeepsWellFormed(was.servers, was.exclude, name);
      }
    }

    /** The route that leaves a server out of a job or takes it back in, for a configured one. */
    method SetExcluded(job: Job, name: string, leaveOut: bool) returns (found: bool)
      modifies this`exclude
      ensures found == Find(servers, name).Some?
      ensures Contents() == Apply(old(Contents()), Change.SetExcluded(job, name, leaveOut))
      ensures WellFormed(servers, old(exclude)) ==> WellFormed(servers, exclude)
    {
      ghost var was := Contents();
      found := Find(servers, name).Some?;
      if found {
        exclude := AfterSetExcluded(exclude, job, name, leaveOut);
      }
      if WellFormed(was.servers, was.exclude) {
        ChangeKeepsWellFormed(was, Change.SetExcluded(job, name, leaveOut));
      }
    }
  }

  /** The steps of saving an edit amount to `AfterEdit`; without a rename there are no references
      to rewrite. */
  lemma EditInSteps(form: Form, servers: seq<Server>, original: string)
    ensures var replaced := Replaced(servers, original, Entry(form));
            AfterEdit(form, servers, original) ==
            RelinkedAll(if form.name == original then replaced else SubRefsAll(replaced, original, form.name),
                        form.name, CheckLink(form, servers, Some(original)), form.box)
  {
    var replaced := Replaced(servers, original, Entry(form));
    forall i | 0 <= i < |servers| && form.name == original
      ensures SubRefs(replaced[i], original, form.name) == replaced[i]
    {
      assert SubGuests(replaced[i].guests, original, original) == replaced[i].guests;
    }
  }

  /** `[s for s in servers if s["name"] != name]` */
  function Others(servers: seq<Server>, name: string): seq<Server> {
    if servers == [] then []
    else
      var last := servers[|servers| - 1];
      Others(servers[..|servers| - 1], name) + (if last.name == name then [] else [last])
  }

  lemma {:induction false} OthersFromTheFront(servers: seq<Server>, name: string)
    requires servers != []
    ensures Others(servers, name) == (if servers[0].name == name then [] else [servers[0]]) + Others(servers[1..], name)
  {
    if |servers| > 1 {
      var front := servers[..|servers| - 1];
      OthersFromTheFront(front, name);
      assert front[1..] == servers[1..][..|servers| - 2];
    }
  }

  function WithoutAll(servers: seq<Server>, name: string): (r: seq<Server>)
    ensures |r| == |servers|
    ensures forall i | 0 <= i < |servers| :: r[i] == servers[i].(guests := Without(servers[i].guests, name))
  {
    seq(|servers|, i requires 0 <= i < |servers| => servers[i].(guests := Without(servers[i].guests, name)))
  }

  lemma {:induction false} OthersThenWithout(servers: seq<Server>, name: string)
    ensures Deleted(servers, name) == WithoutAll(Others(servers, name), name)
  {
    if servers != [] {
      var first, rest := servers[0], servers[1..];
      OthersFromTheFront(servers, name);
      OthersThenWithout(rest, name);
      if first.name != name {
        assert WithoutAll([first] + Others(rest, name), name) ==
               [first.(guests := Without(first.guests, name))] + WithoutAll(Others(rest, name), name);
      } else {
        assert [] + Others(rest, name) == Others(rest, name);
        assert [] + Deleted(rest, name) == Deleted(rest, name);
      }
    }
  }

  lemma {:induction false} NoOthersLost(servers: seq<Server>, name: string)
    requires forall s | s in servers :: s.name != name
    ensures Others(servers, name) == servers
  {
    if servers != [] {
      NoOthersLost(servers[..|servers| - 1], name);
      assert servers[|servers| - 1] in servers;
    }
  }
}
