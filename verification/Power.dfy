/** Bringing one machine up: what the dashboard offers (`status._wakeable`), what the button does
    (`power.wake`), and the wakes that run on threads of their own. */
module Power {
  import opened Fleet
  import opened OnDemand
  import opened Rename

  // -- what wake does --------------------------------------------------------

  /** `guest_link`: the first entry that starts `name`. */
  function GuestLink(links: seq<Link>, name: string): (r: Option<Link>)
    ensures r.Some? ==> r.value in links && r.value.guest == name
    ensures r.None? ==> forall l | l in links :: l.guest != name
  {
    if links == [] then None
    else if links[0].guest == name then Some(links[0])
    else GuestLink(links[1..], name)
  }

  /** `{vm["server_name"]: s["name"] ...}`: the last entry that starts a machine wins. */
  function Parents(links: seq<Link>): (m: map<string, string>)
    ensures forall l | l in links :: l.guest in m
    ensures forall n | n in m :: exists l :: l in links && l.guest == n && l.host == m[n]
  {
    if links == [] then map[]
    else
      var l := links[|links| - 1];
      var before := Parents(links[..|links| - 1]);
      assert forall k | k in links[..|links| - 1] :: k in links;
      before[l.guest := l.host]
  }

  /** No machine is started by two hypervisors. */
  ghost predicate OneHypervisor(links: seq<Link>) {
    forall a, b | a in links && b in links && a.guest == b.guest :: a.host == b.host
  }

  lemma ParentIsTheLink(links: seq<Link>, name: string)
    requires OneHypervisor(links)
    ensures name in Parents(links) <==> GuestLink(links, name).Some?
    ensures name in Parents(links) ==> Parents(links)[name] == GuestLink(links, name).value.host
  {
    if name in Parents(links) {
      var l :| l in links && l.guest == name && l.host == Parents(links)[name];
    }
  }

  lemma LinkedIsManaged(servers: seq<Server>, name: string)
    ensures GuestLink(Links(servers), name).Some? <==> name in ManagedNames(servers)
  {
    if name in ManagedNames(servers) {
      var i, j :| 0 <= i < |servers| && 0 <= j < |servers[i].guests| && servers[i].guests[j].name == name;
      var l := LinksOf(servers[i])[j];
      assert l in LinksOf(servers[i]);
      LinksByMembership(servers, l);
    }
    if GuestLink(Links(servers), name).Some? {
      var l := GuestLink(Links(servers), name).value;
      LinksByMembership(servers, l);
      var s :| s in servers && l in LinksOf(s);
      var i :| 0 <= i < |servers| && servers[i] == s;
      var j :| 0 <= j < |LinksOf(s)| && LinksOf(s)[j] == l;
      assert servers[i].guests[j].name == name;
    }
  }

  lemma HostIsConfigured(servers: seq<Server>, l: Link)
    requires l in Links(servers)
    ensures l.host in Names(servers)
  {
    LinksByMembership(servers, l);
    var s :| s in servers && l in LinksOf(s);
    var i :| 0 <= i < |servers| && servers[i] == s;
    assert Names(servers)[i] == l.host;
  }

  /** How a wake ends: a guest is started on a hypervisor that is up, a magic packet goes out, or
      the operator is told that it cannot be done. */
  datatype End = StartedOn(hypervisor: string) | PacketTo(name: string) | Refused

  /** `wake(name)` and the wakes it makes through `_wake_through`, when everything woken comes up:
      how it ends if that takes at most `calls` calls of `wake`, `None` if it takes more. */
  function Wake(servers: seq<Server>, up: set<string>, name: string, calls: nat): Option<End>
    decreases calls
  {
    if calls == 0 then None
    else
      match GuestLink(Links(servers), name)
      case Some(l) =>
        if l.host in up then Some(StartedOn(l.host))
        else if !CanWake(l.host, servers) then Some(Refused)
        else Wake(servers, up, l.host, calls - 1)
      case None =>
        if Find(servers, name).Some? && Find(servers, name).value.wolMac.Some? then Some(PacketTo(name))
        else Some(Refused)
  }

  predicate Succeeds(r: Option<End>) {
    r.Some? && !r.value.Refused?
  }

  /** The hypervisor `wake(name)` wakes first, if it gets that far. */
  function Hop(servers: seq<Server>, up: set<string>, name: string): Option<string> {
    match GuestLink(Links(servers), name)
    case Some(l) => if l.host !in up && CanWake(l.host, servers) then Some(l.host) else None
    case None => None
  }

  lemma {:induction false} MoreCalls(servers: seq<Server>, up: set<string>, name: string, calls: nat, more: nat)
    requires Wake(servers, up, name, calls).Some? && calls <= more
    ensures Wake(servers, up, name, more) == Wake(servers, up, name, calls)
    decreases calls
  {
    if Hop(servers, up, name).Some? {
      MoreCalls(servers, up, Hop(servers, up, name).value, calls - 1, more - 1);
    }
  }

  lemma FewerCalls(servers: seq<Server>, up: set<string>, name: string, calls: nat, more: nat)
    requires Wake(servers, up, name, more).None? && calls <= more
    ensures Wake(servers, up, name, calls).None?
  {
    if Wake(servers, up, name, calls).Some? {
      MoreCalls(servers, up, name, calls, more);
    }
  }

  /** A way up through sleeping hypervisors, from `path[0]` on. */
  ghost predicate IsPath(servers: seq<Server>, up: set<string>, path: seq<string>) {
    forall i | 0 <= i < |path| - 1 :: Hop(servers, up, path[i]) == Some(path[i + 1])
  }

  lemma {:induction false} AlongPath(servers: seq<Server>, up: set<string>, path: seq<string>, calls: nat)
    requires path != [] && IsPath(servers, up, path)
    ensures Wake(servers, up, path[0], calls + |path| - 1) == Wake(servers, up, path[|path| - 1], calls)
    decreases |path|
  {
    if |path| > 1 {
      assert IsPath(servers, up, path[1..]) by {
        forall i | 0 <= i < |path| - 2
          ensures Hop(servers, up, path[1..][i]) == Some(path[1..][i + 1])
        {
          assert Hop(servers, up, path[i + 1]) == Some(path[i + 2]);
        }
      }
      AlongPath(servers, up, path[1..], calls);
    }
  }

  /** Hypervisors that start each other in a circle, all off: waking one never ends. */
  lemma {:induction false} CircleNeverEnds(servers: seq<Server>, up: set<string>, path: seq<string>, i: nat,
                                           back: nat, calls: nat)
    requires IsPath(servers, up, path) && back <= i < |path|
    requires Hop(servers, up, path[|path| - 1]) == Some(path[back])
    ensures Wake(servers, up, path[i], calls).None?
    decreases calls
  {
    if calls > 0 {
      CircleNeverEnds(servers, up, path, if i == |path| - 1 then back else i + 1, back, calls - 1);
    }
  }

  lemma FitsIn(path: seq<string>, names: seq<string>)
    requires forall i, j | 0 <= i < j < |path| :: path[i] != path[j]
    requires forall i | 0 <= i < |path| :: path[i] in names
    ensures |path| <= |names|
  {
    var seen, all := set n | n in path, set n | n in names;
    Size(path);
    SizeAtMost(names);
    assert seen <= all by {
      forall n | n in seen
        ensures n in all
      {
        var i :| 0 <= i < |path| && path[i] == n;
      }
    }
    assert all == seen + (all - seen);
  }

  lemma {:induction false} Size(path: seq<string>)
    requires forall i, j | 0 <= i < j < |path| :: path[i] != path[j]
    ensures |set n | n in path| == |path|
  {
    if path != [] {
      var front, last := path[..|path| - 1], path[|path| - 1];
      Size(front);
      assert (set n | n in path) == (set n | n in front) + {last};
    }
  }

  lemma {:induction false} SizeAtMost(names: seq<string>)
    ensures |set n | n in names| <= |names|
  {
    if names != [] {
      var front, last := names[..|names| - 1], names[|names| - 1];
      SizeAtMost(front);
      assert (set n | n in names) == (set n | n in front) + {last};
    }
  }

  // -- what the dashboard offers ---------------------------------------------

  /** The loop of `_wakeable` has climbed from `name` over `path` to `at`, not looked at yet. */
  ghost predicate Climbed(servers: seq<Server>, up: set<string>, name: string, path: seq<string>, at: string) {
    && (path + [at])[0] == name
    && IsPath(servers, up, path)
    && (path != [] ==>
          var l := GuestLink(Links(servers), path[|path| - 1]);
          l.Some? && l.value.host == at && at !in up)
  }

  lemma ClimbOn(servers: seq<Server>, up: set<string>, name: string, path: seq<string>, at: string)
    requires Climbed(servers, up, name, path, at) && CanWake(at, servers)
    ensures IsPath(servers, up, path + [at])
    ensures forall calls: nat :: Wake(servers, up, name, calls + |path|) == Wake(servers, up, at, calls)
  {
    var longer := path + [at];
    forall i | 0 <= i < |longer| - 1
      ensures Hop(servers, up, longer[i]) == Some(longer[i + 1])
    {
      if i < |path| - 1 {
        assert Hop(servers, up, path[i]) == Some(path[i + 1]);
      }
    }
    forall calls: nat
      ensures Wake(servers, up, name, calls + |path|) == Wake(servers, up, at, calls)
    {
      AlongPath(servers, up, longer, calls);
    }
  }

  /** `can_wake` says no: the wake of the machine before is refused, or there is none before. */
  lemma CannotWake(servers: seq<Server>, up: set<string>, name: string, path: seq<string>, at: string)
    requires Climbed(servers, up, name, path, at) && !CanWake(at, servers)
    ensures Wake(servers, up, name, if path == [] then 1 else |path|) == Some(Refused)
  {
    LinkedIsManaged(servers, at);
    if path != [] {
      AlongPath(servers, up, path, 1);
    }
  }

  /** The hypervisor is up, or there is none and so a wake address. */
  lemma WakesNow(servers: seq<Server>, up: set<string>, name: string, path: seq<string>, at: string)
    requires Climbed(servers, up, name, path, at) && CanWake(at, servers)
    requires var l := GuestLink(Links(servers), at); l.None? || l.value.host in up
    ensures Succeeds(Wake(servers, up, name, 1 + |path|))
  {
    LinkedIsManaged(servers, at);
    ClimbOn(servers, up, name, path, at);
    assert Succeeds(Wake(servers, up, at, 1));
  }

  /** Back at a machine already seen: the wake would go round for ever. */
  lemma RoundAndRound(servers: seq<Server>, up: set<string>, name: string, path: seq<string>, at: string, calls: nat)
    requires Climbed(servers, up, name, path, at) && at in path && CanWake(at, servers)
    ensures Wake(servers, up, name, calls).None?
  {
    ClimbOn(servers, up, name, path, at);
    var longer := path + [at];
    var back :| 0 <= back < |path| && path[back] == at;
    assert Hop(servers, up, longer[|path| - 1]) == Some(longer[|path|]);
    assert IsPath(servers, up, path);
    CircleNeverEnds(servers, up, path, back, back, calls);
    assert Wake(servers, up, name, calls + |path|) == Wake(servers, up, at, calls);
    FewerCalls(servers, up, name, calls, calls + |path|);
  }

  /** `seen` are the machines of `path`, each once; all could be woken. */
  ghost predicate Visited(servers: seq<Server>, path: seq<string>, at: string, seen: set<string>) {
    && (forall n :: n in seen <==> n in path)
    && (forall i, j | 0 <= i < j < |path| :: path[i] != path[j])
    && (forall i | 0 <= i < |path| :: path[i] in Names(servers) && CanWake(path[i], servers))
    && at in Names(servers)
  }

  lemma Higher(servers: seq<Server>, up: set<string>, name: string, path: seq<string>, at: string)
    requires Climbed(servers, up, name, path, at) && CanWake(at, servers)
    requires GuestLink(Links(servers), at).Some? && GuestLink(Links(servers), at).value.host !in up
    ensures var host := GuestLink(Links(servers), at).value.host;
            Climbed(servers, up, name, path + [at], host) && host in Names(servers)
  {
    ClimbOn(servers, up, name, path, at);
    HostIsConfigured(servers, GuestLink(Links(servers), at).value);
  }

  lemma VisitOneMore(servers: seq<Server>, path: seq<string>, at: string, seen: set<string>, host: string)
    requires Visited(servers, path, at, seen) && at !in seen && CanWake(at, servers) && host in Names(servers)
    ensures Visited(servers, path + [at], host, seen + {at})
    ensures |path| < |servers|
  {
    var longer := path + [at];
    forall i, j | 0 <= i < j < |longer|
      ensures longer[i] != longer[j]
    {
      assert path[i] in path;
    }
    FitsIn(longer, Names(servers));
  }

  ghost predicate NeverSucceeds(servers: seq<Server>, up: set<string>, name: string) {
    forall calls: nat :: !Succeeds(Wake(servers, up, name, calls))
  }

  lemma ItIsRefused(servers: seq<Server>, up: set<string>, name: string, path: seq<string>, at: string)
    requires Climbed(servers, up, name, path, at) && !CanWake(at, servers)
    ensures NeverSucceeds(servers, up, name)
  {
    CannotWake(servers, up, name, path, at);
    var calls := if path == [] then 1 else |path|;
    forall more: nat
      ensures !Succeeds(Wake(servers, up, name, more))
    {
      if Wake(servers, up, name, more).Some? {
        MoreCalls(servers, up, name, if more <= calls then more else calls, if more <= calls then calls else more);
      }
    }
  }

  lemma ItSucceeds(servers: seq<Server>, up: set<string>, name: string, path: seq<string>, at: string,
                   seen: set<string>)
    requires Climbed(servers, up, name, path, at) && CanWake(at, servers)
    requires Visited(servers, path, at, seen) && at !in seen
    requires var l := GuestLink(Links(servers), at); l.None? || l.value.host in up
    ensures Succeeds(Wake(servers, up, name, |servers|))
  {
    WakesNow(servers, up, name, path, at);
    VisitOneMore(servers, path, at, seen, at);
    MoreCalls(servers, up, name, 1 + |path|, |servers|);
  }

  lemma ItGoesRound(servers: seq<Server>, up: set<string>, name: string, path: seq<string>, at: string,
                    seen: set<string>)
    requires Climbed(servers, up, name, path, at) && Visited(servers, path, at, seen) && at in seen
    ensures NeverSucceeds(servers, up, name)
  {
    forall calls: nat
      ensures !Succeeds(Wake(servers, up, name, calls))
    {
      RoundAndRound(servers, up, name, path, at, calls);
    }
  }

  /** `status._wakeable`: true exactly when the wake behind the button ends, and ends in a running
      hypervisor or a magic packet. It then takes no more calls than there are servers; and a
      configuration that goes round in a circle gets no button instead of an endless wake. */
  method Wakeable(name: string, servers: seq<Server>, up: set<string>) returns (wakeable: bool)
    requires UniqueNames(servers) && OneHypervisor(Links(servers)) && name in Names(servers)
    ensures wakeable <==> Succeeds(Wake(servers, up, name, |servers|))
    ensures wakeable <==> exists calls: nat :: Succeeds(Wake(servers, up, name, calls))
  {
    var parents := Parents(Links(servers));
    var at := name;
    var seen: set<string> := {};
    ghost var path := [];
    while at !in seen
      invariant Climbed(servers, up, name, path, at)
      invariant Visited(servers, path, at, seen)
      decreases |servers| - |path|
    {
      if !CanWake(at, servers) {
        ItIsRefused(servers, up, name, path, at);
        return false;
      }
      ParentIsTheLink(Links(servers), at);
      if at !in parents || parents[at] in up {
        ItSucceeds(servers, up, name, path, at, seen);
        return true;
      }
      Higher(servers, up, name, path, at);
      VisitOneMore(servers, path, at, seen, parents[at]);
      seen := seen + {at};
      path := path + [at];
      at := parents[at];
    }
    ItGoesRound(servers, up, name, path, at, seen);
    wakeable := false;
  }
}
