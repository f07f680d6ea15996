/** Renaming a server: the derived facts about the fleet are the old ones under the new name. */
module Rename {
  import opened Fleet
  import opened OnDemand

  /** `config.can_wake`: a wake address, or a hypervisor that starts it. */
  predicate CanWake(name: string, servers: seq<Server>) {
    || (Find(servers, name).Some? && Find(servers, name).value.wolMac.Some?)
    || name in ManagedNames(servers)
  }

  /** The substitution a rename is. */
  function Sub(n: string, from: string, to: string): string {
    if n == from then to else n
  }

  function SubReason(why: Reason, from: string, to: string): Reason {
    if why.Via? then Via(Sub(why.hypervisor, from, to)) else why
  }

  function SubGuests(guests: seq<Guest>, from: string, to: string): (r: seq<Guest>)
    ensures |r| == |guests|
    ensures forall i | 0 <= i < |guests| :: r[i] == guests[i].(name := Sub(guests[i].name, from, to))
  {
    seq(|guests|, i requires 0 <= i < |guests| => guests[i].(name := Sub(guests[i].name, from, to)))
  }

  function SubServer(s: Server, from: string, to: string): Server {
    s.(name := Sub(s.name, from, to),
       guests := SubGuests(s.guests, from, to),
       wolRelay := if s.wolRelay == Some(from) then Some(to) else s.wolRelay)
  }

  function SubServers(servers: seq<Server>, from: string, to: string): (r: seq<Server>)
    ensures |r| == |servers|
    ensures forall i | 0 <= i < |servers| :: r[i] == SubServer(servers[i], from, to)
  {
    seq(|servers|, i requires 0 <= i < |servers| => SubServer(servers[i], from, to))
  }

  function SubLinks(links: seq<Link>, from: string, to: string): (r: seq<Link>)
    ensures |r| == |links|
    ensures forall i | 0 <= i < |links| ::
              r[i] == Link(Sub(links[i].host, from, to), Sub(links[i].guest, from, to), links[i].onDemand)
  {
    seq(|links|, i requires 0 <= i < |links| =>
      Link(Sub(links[i].host, from, to), Sub(links[i].guest, from, to), links[i].onDemand))
  }

  /** No server or guest entry bears the name yet. */
  predicate Fresh(servers: seq<Server>, to: string) {
    && (forall s | s in servers :: s.name != to)
    && to !in ManagedNames(servers)
  }

  /** `r` is `m` with the name substituted, in its keys and in its reasons. */
  ghost predicate Renamed(m: Reasons, r: Reasons, from: string, to: string) {
    && to !in m && (from != to ==> from !in r)
    && (forall n | n != to :: n in m <==> Sub(n, from, to) in r)
    && (forall n | n in m :: r[Sub(n, from, to)] == SubReason(m[n], from, to))
  }

  lemma RenamedIsUnique(m: Reasons, r: Reasons, q: Reasons, from: string, to: string)
    requires from != to && Renamed(m, r, from, to) && Renamed(m, q, from, to)
    ensures r == q
  {
    forall k
      ensures (k in r <==> k in q) && (k in r ==> r[k] == q[k])
    {
      var n := if k == to then from else k;
      assert k != from ==> Sub(n, from, to) == k;
    }
  }

  lemma RenamedIsInjective(m: Reasons, n: Reasons, r: Reasons, from: string, to: string)
    requires from != to && Renamed(m, r, from, to) && Renamed(n, r, from, to)
    requires forall k | k in m && k in n :: m[k] == n[k]
    ensures m == n
  {
    forall k
      ensures k in m <==> k in n
    {
      if k != to { assert Sub(k, from, to) in r <==> k in m; }
    }
  }

  lemma SetRenamed(m: Reasons, r: Reasons, k: string, why: Reason, from: string, to: string)
    requires from != to && Renamed(m, r, from, to) && k != to
    ensures Renamed(m[k := why], r[Sub(k, from, to) := SubReason(why, from, to)], from, to)
  {
    var m', r' := m[k := why], r[Sub(k, from, to) := SubReason(why, from, to)];
    forall n | n != to
      ensures n in m' <==> Sub(n, from, to) in r'
      ensures n in m' ==> r'[Sub(n, from, to)] == SubReason(m'[n], from, to)
    {
      assert n in m <==> Sub(n, from, to) in r;
      assert Sub(n, from, to) == Sub(k, from, to) <==> n == k;
    }
  }

  lemma {:induction false} MacsRenamed(servers: seq<Server>, from: string, to: string)
    requires from != to && forall s | s in servers :: s.name != to
    ensures Renamed(Macs(servers), Macs(SubServers(servers, from, to)), from, to)
  {
    if servers != [] {
      var front, s := servers[..|servers| - 1], servers[|servers| - 1];
      MacsRenamed(front, from, to);
      assert SubServers(servers, from, to)[..|servers| - 1] == SubServers(front, from, to);
      assert s in servers;
      if s.wolMac.Some? {
        SetRenamed(Macs(front), Macs(SubServers(front, from, to)), s.name, Wol, from, to);
      }
    }
  }

  lemma LinksOfRenamed(s: Server, from: string, to: string)
    ensures LinksOf(SubServer(s, from, to)) == SubLinks(LinksOf(s), from, to)
  {
  }

  lemma SubLinksOfSum(a: seq<Link>, b: seq<Link>, from: string, to: string)
    ensures SubLinks(a + b, from, to) == SubLinks(a, from, to) + SubLinks(b, from, to)
  {
  }

  lemma {:induction false} LinksRenamed(servers: seq<Server>, from: string, to: string)
    ensures Links(SubServers(servers, from, to)) == SubLinks(Links(servers), from, to)
  {
    if servers != [] {
      var front, s := servers[..|servers| - 1], servers[|servers| - 1];
      assert SubServers(servers, from, to)[..|servers| - 1] == SubServers(front, from, to);
      LinksRenamed(front, from, to);
      LinksOfRenamed(s, from, to);
      SubLinksOfSum(Links(front), LinksOf(s), from, to);
    }
  }

  lemma {:induction false} FlaggedRenamed(m: Reasons, r: Reasons, links: seq<Link>, from: string, to: string)
    requires from != to && Renamed(m, r, from, to) && forall l | l in links :: l.guest != to
    ensures Renamed(AddFlagged(m, links), AddFlagged(r, SubLinks(links, from, to)), from, to)
  {
    if links != [] {
      var front, l := links[..|links| - 1], links[|links| - 1];
      FlaggedRenamed(m, r, front, from, to);
      assert SubLinks(links, from, to)[..|links| - 1] == SubLinks(front, from, to);
      assert l in links;
      SetRenamed(AddFlagged(m, front), AddFlagged(r, SubLinks(front, from, to)), l.guest, Via(l.host), from, to);
    }
  }

  lemma {:induction false} ManualRenamed(m: Reasons, r: Reasons, servers: seq<Server>, from: string, to: string)
    requires from != to && Renamed(m, r, from, to) && forall s | s in servers :: s.name != to
    ensures Renamed(AddManual(m, servers), AddManual(r, SubServers(servers, from, to)), from, to)
  {
    if servers != [] {
      var front, s := servers[..|servers| - 1], servers[|servers| - 1];
      ManualRenamed(m, r, front, from, to);
      assert SubServers(servers, from, to)[..|servers| - 1] == SubServers(front, from, to);
      assert s in servers;
      SetRenamed(AddManual(m, front), AddManual(r, SubServers(front, from, to)), s.name, Manual, from, to);
    }
  }

  predicate Avoids(links: seq<Link>, to: string) {
    forall l | l in links :: l.guest != to && l.host != to
  }

  lemma {:induction false} PassRenamed(m: Reasons, r: Reasons, links: seq<Link>, from: string, to: string)
    requires from != to && Renamed(m, r, from, to) && Avoids(links, to)
    ensures Renamed(Pass(m, links), Pass(r, SubLinks(links, from, to)), from, to)
  {
    if links != [] {
      var front, l := links[..|links| - 1], links[|links| - 1];
      assert l in links && Avoids(front, to);
      PassRenamed(m, r, front, from, to);
      var before, rbefore := Pass(m, front), Pass(r, SubLinks(front, from, to));
      assert SubLinks(links, from, to)[..|links| - 1] == SubLinks(front, from, to);
      assert l.host in before <==> Sub(l.host, from, to) in rbefore;
      assert l.guest in before <==> Sub(l.guest, from, to) in rbefore;
      SetRenamed(before, rbefore, l.guest, Via(l.host), from, to);
    }
  }

  lemma {:induction false} FixpointRenamed(m: Reasons, r: Reasons, links: seq<Link>, from: string, to: string)
    requires from != to && Renamed(m, r, from, to) && Avoids(links, to)
    ensures Renamed(Fixpoint(m, links), Fixpoint(r, SubLinks(links, from, to)), from, to)
    decreases Guests(links) - m.Keys
  {
    var p, q := Pass(m, links), Pass(r, SubLinks(links, from, to));
    PassRenamed(m, r, links, from, to);
    PassGrows(m, links);
    if p == m {
      RenamedIsUnique(m, r, q, from, to);
    } else {
      if q == r {
        RenamedIsInjective(m, p, r, from, to);
        assert false;
      }
      FixpointRenamed(p, q, links, from, to);
    }
  }

  lemma LinksAvoid(servers: seq<Server>, to: string)
    requires Fresh(servers, to)
    ensures Avoids(Links(servers), to)
  {
    forall l | l in Links(servers)
      ensures l.guest != to && l.host != to
    {
      LinksByMembership(servers, l);
      var s :| s in servers && l in LinksOf(s);
      var i :| 0 <= i < |servers| && servers[i] == s;
      var j :| 0 <= j < |LinksOf(s)| && LinksOf(s)[j] == l;
      assert servers[i].guests[j].name == l.guest;
    }
  }

  /** The machines expected off after a rename, and why, are those before it under the new name. */
  lemma OnDemandRenamed(servers: seq<Server>, from: string, to: string)
    requires from != to && Fresh(servers, to)
    ensures Renamed(OnDemandOf(servers), OnDemandOf(SubServers(servers, from, to)), from, to)
  {
    var renamed := SubServers(servers, from, to);
    LinksAvoid(servers, to);
    LinksRenamed(servers, from, to);
    MacsRenamed(servers, from, to);
    FlaggedRenamed(Macs(servers), Macs(renamed), Links(servers), from, to);
    var flagged, reflagged := AddFlagged(Macs(servers), Links(servers)), AddFlagged(Macs(renamed), Links(renamed));
    ManualRenamed(flagged, reflagged, servers, from, to);
    FixpointRenamed(Seeded(servers), Seeded(renamed), Links(servers), from, to);
  }

  lemma {:induction false} FindRenamed(servers: seq<Server>, n: string, from: string, to: string)
    requires from != to && n != to && forall s | s in servers :: s.name != to
    ensures Find(SubServers(servers, from, to), Sub(n, from, to)).Some? <==> Find(servers, n).Some?
    ensures Find(servers, n).Some? ==>
              Find(SubServers(servers, from, to), Sub(n, from, to)).value == SubServer(Find(servers, n).value, from, to)
  {
    if servers != [] {
      assert servers[0] in servers;
      assert SubServers(servers, from, to)[1..] == SubServers(servers[1..], from, to);
      FindRenamed(servers[1..], n, from, to);
    }
  }

  lemma ManagedStays(servers: seq<Server>, n: string, from: string, to: string)
    requires n in ManagedNames(servers)
    ensures Sub(n, from, to) in ManagedNames(SubServers(servers, from, to))
  {
    var i, j :| 0 <= i < |servers| && 0 <= j < |servers[i].guests| && servers[i].guests[j].name == n;
    var renamed := SubServers(servers, from, to);
    assert renamed[i].guests[j].name == Sub(n, from, to);
  }

  lemma ManagedCameFrom(servers: seq<Server>, k: string, from: string, to: string) returns (n: string)
    requires k in ManagedNames(SubServers(servers, from, to))
    ensures n in ManagedNames(servers) && Sub(n, from, to) == k
  {
    var renamed := SubServers(servers, from, to);
    var i, j :| 0 <= i < |renamed| && 0 <= j < |renamed[i].guests| && renamed[i].guests[j].name == k;
    n := servers[i].guests[j].name;
  }

  lemma ManagedRenamed(servers: seq<Server>, n: string, from: string, to: string)
    requires from != to && n != to && Fresh(servers, to)
    ensures n in ManagedNames(servers) <==> Sub(n, from, to) in ManagedNames(SubServers(servers, from, to))
    ensures from !in ManagedNames(SubServers(servers, from, to))
  {
    if n in ManagedNames(servers) {
      ManagedStays(servers, n, from, to);
    }
    if Sub(n, from, to) in ManagedNames(SubServers(servers, from, to)) {
      var k := ManagedCameFrom(servers, Sub(n, from, to), from, to);
    }
    if from in ManagedNames(SubServers(servers, from, to)) {
      var k := ManagedCameFrom(servers, from, from, to);
    }
  }

  /** What timar can power on stays what it can power on. */
  lemma CanWakeRenamed(servers: seq<Server>, n: string, from: string, to: string)
    requires from != to && n != to && Fresh(servers, to)
    ensures CanWake(n, servers) <==> CanWake(Sub(n, from, to), SubServers(servers, from, to))
    ensures !CanWake(from, SubServers(servers, from, to))
  {
    FindRenamed(servers, n, from, to);
    ManagedRenamed(servers, n, from, to);
    assert forall s | s in SubServers(servers, from, to) :: s.name != from;
  }
}
