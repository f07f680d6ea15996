/** Which machines are expected to be off, and why: a least fixpoint over hypervisors and guests
    that may be written in any order and may even form a loop. */
module OnDemand {
  import opened Fleet

  datatype Reason = Wol | Manual | Via(hypervisor: string)

  type Reasons = map<string, Reason>

  /** A `manages_vms` entry together with the server it is in. */
  datatype Link = Link(host: string, guest: string, onDemand: bool)

  function LinksOf(s: Server): (links: seq<Link>)
    ensures |links| == |s.guests|
    ensures forall i | 0 <= i < |links| :: links[i] == Link(s.name, s.guests[i].name, s.guests[i].onDemand)
  {
    seq(|s.guests|, i requires 0 <= i < |s.guests| => Link(s.name, s.guests[i].name, s.guests[i].onDemand))
  }

  function Links(servers: seq<Server>): seq<Link> {
    if servers == [] then [] else Links(servers[..|servers| - 1]) + LinksOf(servers[|servers| - 1])
  }

  /** `reasons.setdefault(name, why)` */
  function SetDefault(m: Reasons, name: string, why: Reason): Reasons {
    if name in m then m else m[name := why]
  }

  function Macs(servers: seq<Server>): Reasons {
    if servers == [] then map[]
    else
      var m := Macs(servers[..|servers| - 1]);
      var s := servers[|servers| - 1];
      if s.wolMac.Some? then m[s.name := Wol] else m
  }

  function AddFlagged(m: Reasons, links: seq<Link>): Reasons {
    if links == [] then m
    else
      var before := AddFlagged(m, links[..|links| - 1]);
      var l := links[|links| - 1];
      if l.onDemand then SetDefault(before, l.guest, Via(l.host)) else before
  }

  function AddManual(m: Reasons, servers: seq<Server>): Reasons {
    if servers == [] then m
    else
      var before := AddManual(m, servers[..|servers| - 1]);
      var s := servers[|servers| - 1];
      if s.onDemand then SetDefault(before, s.name, Manual) else before
  }

  /** One turn of the `while changed` loop: inheritance once through all links. */
  function Pass(m: Reasons, links: seq<Link>): Reasons {
    if links == [] then m
    else
      var before := Pass(m, links[..|links| - 1]);
      var l := links[|links| - 1];
      if l.host in before && l.guest !in before then before[l.guest := Via(l.host)] else before
  }

  function Guests(links: seq<Link>): (names: set<string>)
    ensures forall l | l in links :: l.guest in names
    ensures forall n | n in names :: exists l :: l in links && l.guest == n
  {
    set l | l in links :: l.guest
  }

  lemma {:induction false} PassGrows(m: Reasons, links: seq<Link>)
    ensures m.Keys <= Pass(m, links).Keys <= m.Keys + Guests(links)
    ensures forall n | n in m :: Pass(m, links)[n] == m[n]
    ensures Pass(m, links) != m ==> Guests(links) - Pass(m, links).Keys < Guests(links) - m.Keys
  {
    if links != [] {
      PassGrows(m, links[..|links| - 1]);
      assert forall l | l in links[..|links| - 1] :: l in links;
    }
    var p := Pass(m, links);
    assert p.Keys == m.Keys ==> p == m;
  }

  function Fixpoint(m: Reasons, links: seq<Link>): Reasons
    decreases Guests(links) - m.Keys
  {
    PassGrows(m, links);
    var p := Pass(m, links);
    if p == m then m else Fixpoint(p, links)
  }

  function Seeded(servers: seq<Server>): Reasons {
    AddManual(AddFlagged(Macs(servers), Links(servers)), servers)
  }

  function OnDemandOf(servers: seq<Server>): Reasons {
    Fixpoint(Seeded(servers), Links(servers))
  }

  // -- the loops -------------------------------------------------------------

  lemma LinksSnoc(servers: seq<Server>, i: nat)
    requires i < |servers|
    ensures Links(servers[..i + 1]) == Links(servers[..i]) + LinksOf(servers[i])
  {
    assert servers[..i + 1][..i] == servers[..i];
  }

  /** `config.on_demand` */
  method OnDemandLoop(servers: seq<Server>) returns (reasons: Reasons)
    ensures reasons == OnDemandOf(servers)
  {
    reasons := MacLoop(servers);
    var links := [];
    for i := 0 to |servers|
      invariant links == Links(servers[..i])
      invariant reasons == AddFlagged(Macs(servers), links)
    {
      LinksSnoc(servers, i);
      reasons := FlagLoop(servers[i], Macs(servers), links, reasons);
      links := links + LinksOf(servers[i]);
    }
    assert servers[..|servers|] == servers;
    reasons := ManualLoop(servers, reasons);
    reasons := Inherit(reasons, links);
  }

  method MacLoop(servers: seq<Server>) returns (reasons: Reasons)
    ensures reasons == Macs(servers)
  {
    reasons := map[];
    for i := 0 to |servers|
      invariant reasons == Macs(servers[..i])
    {
      assert servers[..i + 1][..i] == servers[..i];
      if servers[i].wolMac.Some? {
        reasons := reasons[servers[i].name := Wol];
      }
    }
    assert servers[..|servers|] == servers;
  }

  /** The guests of one hypervisor. */
  method FlagLoop(s: Server, ghost macs: Reasons, ghost links: seq<Link>, before: Reasons) returns (reasons: Reasons)
    requires before == AddFlagged(macs, links)
    ensures reasons == AddFlagged(macs, links + LinksOf(s))
  {
    reasons := before;
    assert links + LinksOf(s)[..0] == links;
    for k := 0 to |s.guests|
      invariant reasons == AddFlagged(macs, links + LinksOf(s)[..k])
    {
      var g := s.guests[k];
      FlaggedSnoc(macs, links, LinksOf(s), k);
      if g.onDemand {
        reasons := SetDefault(reasons, g.name, Via(s.name));
      }
    }
    assert LinksOf(s)[..|s.guests|] == LinksOf(s);
  }

  lemma FlaggedSnoc(macs: Reasons, links: seq<Link>, more: seq<Link>, k: nat)
    requires k < |more|
    ensures var before := AddFlagged(macs, links + more[..k]);
            AddFlagged(macs, links + more[..k + 1]) ==
            if more[k].onDemand then SetDefault(before, more[k].guest, Via(more[k].host)) else before
  {
    var longer := links + more[..k + 1];
    assert longer[..|longer| - 1] == links + more[..k];
  }

  method ManualLoop(servers: seq<Server>, before: Reasons) returns (reasons: Reasons)
    ensures reasons == AddManual(before, servers)
  {
    reasons := before;
    for i := 0 to |servers|
      invariant reasons == AddManual(before, servers[..i])
    {
      assert servers[..i + 1][..i] == servers[..i];
      if servers[i].onDemand {
        reasons := SetDefault(reasons, servers[i].name, Manual);
      }
    }
    assert servers[..|servers|] == servers;
  }

  /** `while changed`: reasons are handed down until a turn adds none. */
  method Inherit(seeded: Reasons, links: seq<Link>) returns (reasons: Reasons)
    ensures reasons == Fixpoint(seeded, links)
  {
    reasons := seeded;
    var changed := true;
    while changed
      invariant Fixpoint(reasons, links) == Fixpoint(seeded, links)
      invariant !changed ==> Pass(reasons, links) == reasons
      decreases Guests(links) - reasons.Keys, changed
    {
      changed := false;
      ghost var before := reasons;
      PassGrows(before, links);
      for k := 0 to |links|
        invariant reasons == Pass(before, links[..k])
        invariant changed <==> reasons != before
      {
        assert links[..k + 1][..k] == links[..k];
        PassGrows(before, links[..k]);
        var l := links[k];
        if l.host in reasons && l.guest !in reasons {
          reasons := reasons[l.guest := Via(l.host)];
          changed := true;
          assert l.guest !in before;
        }
      }
      assert links[..|links|] == links;
    }
  }

  // -- the domain is a least fixpoint ----------------------------------------

  predicate HasMac(servers: seq<Server>, n: string) {
    exists s :: s in servers && s.name == n && s.wolMac.Some?
  }

  predicate IsFlagged(servers: seq<Server>, n: string) {
    exists l :: l in Links(servers) && l.guest == n && l.onDemand
  }

  predicate IsManual(servers: seq<Server>, n: string) {
    exists s :: s in servers && s.name == n && s.onDemand
  }

  predicate IsSeed(servers: seq<Server>, n: string) {
    HasMac(servers, n) || IsFlagged(servers, n) || IsManual(servers, n)
  }

  ghost predicate ClosedUnder(links: seq<Link>, names: set<string>) {
    forall l | l in links && l.host in names :: l.guest in names
  }

  lemma {:induction false} MacsAre(servers: seq<Server>, n: string)
    ensures n in Macs(servers) <==> HasMac(servers, n)
    ensures n in Macs(servers) ==> Macs(servers)[n] == Wol
  {
    if servers != [] {
      var front := servers[..|servers| - 1];
      MacsAre(front, n);
      assert servers == front + [servers[|servers| - 1]];
    }
  }

  /** Link `i` is the first that flags `n` as expected off. */
  predicate FlagsFirst(links: seq<Link>, i: nat, n: string)
    requires i < |links|
  {
    links[i].guest == n && links[i].onDemand && forall k | 0 <= k < i :: !(links[k].guest == n && links[k].onDemand)
  }

  predicate IsFirstFlag(links: seq<Link>, n: string, why: Reason) {
    exists i :: 0 <= i < |links| && FlagsFirst(links, i, n) && why == Via(links[i].host)
  }

  /** What the guest flags add: only to machines without a reason, and the first flag counts. */
  lemma {:induction false} FlaggedAre(m: Reasons, links: seq<Link>, n: string)
    ensures n in m ==> n in AddFlagged(m, links) && AddFlagged(m, links)[n] == m[n]
    ensures n in AddFlagged(m, links) <==> n in m || exists l :: l in links && l.guest == n && l.onDemand
    ensures n in AddFlagged(m, links) && n !in m ==> IsFirstFlag(links, n, AddFlagged(m, links)[n])
  {
    if links != [] {
      var front := links[..|links| - 1];
      var last := links[|links| - 1];
      FlaggedAre(m, front, n);
      assert links == front + [last];
      if n in AddFlagged(m, front) && n !in m {
        var i :| 0 <= i < |front| && FlagsFirst(front, i, n) && AddFlagged(m, front)[n] == Via(front[i].host);
        assert FlagsFirst(links, i, n);
      } else if last.onDemand && last.guest == n && n !in m {
        assert forall k | 0 <= k < |front| :: links[k] in front;
        assert FlagsFirst(links, |front|, n);
      }
    }
  }

  lemma {:induction false} ManualAre(m: Reasons, servers: seq<Server>, n: string)
    ensures n in m ==> n in AddManual(m, servers) && AddManual(m, servers)[n] == m[n]
    ensures n in AddManual(m, servers) <==> n in m || IsManual(servers, n)
    ensures n in AddManual(m, servers) && n !in m ==> AddManual(m, servers)[n] == Manual
  {
    if servers != [] {
      var front := servers[..|servers| - 1];
      ManualAre(m, front, n);
      assert servers == front + [servers[|servers| - 1]];
    }
  }

  lemma SeedsAre(servers: seq<Server>, n: string)
    ensures n in Seeded(servers) <==> IsSeed(servers, n)
  {
    MacsAre(servers, n);
    FlaggedAre(Macs(servers), Links(servers), n);
    ManualAre(AddFlagged(Macs(servers), Links(servers)), servers, n);
  }

  /** A turn that adds nothing has closed the domain under hypervisor-to-guest. */
  lemma {:induction false} StableIsClosed(m: Reasons, links: seq<Link>)
    requires Pass(m, links) == m
    ensures ClosedUnder(links, m.Keys)
  {
    if links != [] {
      var front := links[..|links| - 1];
      PassGrows(m, front);
      PassGrows(Pass(m, front), [links[|links| - 1]]);
      var p := Pass(m, front);
      assert p.Keys <= Pass(m, links).Keys;
      assert p.Keys == m.Keys;
      assert p == m;
      StableIsClosed(m, front);
      assert links == front + [links[|links| - 1]];
    }
  }

  lemma {:induction false} PassStaysWithin(m: Reasons, links: seq<Link>, names: set<string>)
    requires m.Keys <= names && ClosedUnder(links, names)
    ensures Pass(m, links).Keys <= names
  {
    if links != [] {
      var front := links[..|links| - 1];
      assert links == front + [links[|links| - 1]];
      PassStaysWithin(m, front, names);
    }
  }

  lemma {:induction false} FixpointIsLeast(m: Reasons, links: seq<Link>)
    ensures m.Keys <= Fixpoint(m, links).Keys && ClosedUnder(links, Fixpoint(m, links).Keys)
    ensures forall n | n in m :: Fixpoint(m, links)[n] == m[n]
    ensures forall names | m.Keys <= names && ClosedUnder(links, names) :: Fixpoint(m, links).Keys <= names
    decreases Guests(links) - m.Keys
  {
    PassGrows(m, links);
    var p := Pass(m, links);
    if p == m {
      StableIsClosed(m, links);
    } else {
      FixpointIsLeast(p, links);
      forall names | m.Keys <= names && ClosedUnder(links, names)
        ensures Fixpoint(m, links).Keys <= names
      {
        PassStaysWithin(m, links, names);
      }
    }
  }

  /** The machines expected to be off are the least set that holds every machine with a wake
      address, a guest flag or a manual flag, and every guest of a machine in it. */
  lemma DomainIsLeast(servers: seq<Server>)
    ensures var d := OnDemandOf(servers).Keys;
            && (forall n | IsSeed(servers, n) :: n in d)
            && ClosedUnder(Links(servers), d)
            && (forall names | (forall n | IsSeed(servers, n) :: n in names) && ClosedUnder(Links(servers), names) ::
                 d <= names)
  {
    FixpointIsLeast(Seeded(servers), Links(servers));
    forall n
      ensures n in Seeded(servers) <==> IsSeed(servers, n)
    {
      SeedsAre(servers, n);
    }
  }

  lemma {:induction false} LinksByMembership(servers: seq<Server>, l: Link)
    ensures l in Links(servers) <==> exists s :: s in servers && l in LinksOf(s)
  {
    if servers != [] {
      var front := servers[..|servers| - 1];
      LinksByMembership(front, l);
      assert servers == front + [servers[|servers| - 1]];
    }
  }

  /** Which links, wake addresses and manual flags there are decides which machines are expected off. */
  lemma OnlyLinksMatter(a: seq<Server>, b: seq<Server>)
    requires forall l :: l in Links(a) <==> l in Links(b)
    requires forall n :: (HasMac(a, n) <==> HasMac(b, n)) && (IsManual(a, n) <==> IsManual(b, n))
    ensures OnDemandOf(a).Keys == OnDemandOf(b).Keys
  {
    DomainIsLeast(a);
    DomainIsLeast(b);
    var da, db := OnDemandOf(a).Keys, OnDemandOf(b).Keys;
    assert forall n :: IsSeed(a, n) <==> IsSeed(b, n);
    assert ClosedUnder(Links(a), db) && ClosedUnder(Links(b), da);
    assert da <= db && db <= da;
  }

  /** Config order decides nothing: the same entries in any order give the same machines. */
  lemma OrderDoesNotMatter(a: seq<Server>, b: seq<Server>)
    requires forall s :: s in a <==> s in b
    ensures OnDemandOf(a).Keys == OnDemandOf(b).Keys
  {
    forall l
      ensures l in Links(a) <==> l in Links(b)
    {
      LinksByMembership(a, l);
      LinksByMembership(b, l);
    }
    OnlyLinksMatter(a, b);
  }

  // -- the reasons -----------------------------------------------------------

  /** A handed-down reason names a hypervisor that is itself expected off and starts the machine. */
  lemma {:induction false} PassReasons(m: Reasons, links: seq<Link>, n: string)
    requires n in Pass(m, links) && n !in m
    ensures Pass(m, links)[n].Via?
    ensures var h := Pass(m, links)[n].hypervisor;
            h in Pass(m, links) && exists l :: l in links && l.host == h && l.guest == n
  {
    var front := links[..|links| - 1];
    var last := links[|links| - 1];
    assert links == front + [last];
    PassGrows(m, front);
    if n in Pass(m, front) {
      PassReasons(m, front, n);
    }
  }

  lemma {:induction false} FixpointReasons(m: Reasons, links: seq<Link>, n: string)
    requires n in Fixpoint(m, links) && n !in m
    ensures Fixpoint(m, links)[n].Via?
    ensures var h := Fixpoint(m, links)[n].hypervisor;
            h in Fixpoint(m, links) && exists l :: l in links && l.host == h && l.guest == n
    decreases Guests(links) - m.Keys
  {
    PassGrows(m, links);
    var p := Pass(m, links);
    FixpointIsLeast(p, links);
    if n in p {
      PassReasons(m, links, n);
    } else {
      FixpointReasons(p, links, n);
    }
  }

  /** Why each machine is expected off, in order of precedence: its own wake address, the first
      hypervisor that flags it, the operator's flag, and only then a hypervisor it inherits from. */
  lemma ReasonPrecedence(servers: seq<Server>, n: string)
    requires n in OnDemandOf(servers)
    ensures var why := OnDemandOf(servers)[n];
            var links := Links(servers);
            if HasMac(servers, n) then why == Wol
            else if IsFlagged(servers, n) then IsFirstFlag(links, n, why)
            else if IsManual(servers, n) then why == Manual
            else why.Via? && why.hypervisor in OnDemandOf(servers) &&
                 exists l :: l in links && l.host == why.hypervisor && l.guest == n
  {
    var links := Links(servers);
    MacsAre(servers, n);
    FlaggedAre(Macs(servers), links, n);
    ManualAre(AddFlagged(Macs(servers), links), servers, n);
    FixpointIsLeast(Seeded(servers), links);
    if n !in Seeded(servers) {
      FixpointReasons(Seeded(servers), links, n);
    }
  }

  ghost predicate OneHost(links: seq<Link>) {
    forall l, m | l in links && m in links && l.guest == m.guest :: l.host == m.host
  }

  /** And where no guest has two hypervisors, they decide the reasons too. */
  lemma SameReasons(a: seq<Server>, b: seq<Server>)
    requires forall l :: l in Links(a) <==> l in Links(b)
    requires forall n :: (HasMac(a, n) <==> HasMac(b, n)) && (IsManual(a, n) <==> IsManual(b, n))
    requires OneHost(Links(a))
    ensures OnDemandOf(a) == OnDemandOf(b)
  {
    OnlyLinksMatter(a, b);
    forall n | n in OnDemandOf(a)
      ensures OnDemandOf(a)[n] == OnDemandOf(b)[n]
    {
      ReasonPrecedence(a, n);
      ReasonPrecedence(b, n);
    }
  }

  /** Asking "why?" of `n`, then of the hypervisor it names, and so on, comes to a machine in
      `seeds` after at most `steps` answers. */
  predicate LeadsToSeed(m: Reasons, seeds: Reasons, n: string, steps: nat)
    decreases steps
  {
    n in seeds || (steps > 0 && n in m && m[n].Via? && LeadsToSeed(m, seeds, m[n].hypervisor, steps - 1))
  }

  lemma {:induction false} LeadsStill(m: Reasons, more: Reasons, seeds: Reasons, n: string, steps: nat, moreSteps: nat)
    requires LeadsToSeed(m, seeds, n, steps) && steps <= moreSteps
    requires forall k | k in m :: k in more && more[k] == m[k]
    ensures LeadsToSeed(more, seeds, n, moreSteps)
    decreases steps
  {
    if n !in seeds {
      LeadsStill(m, more, seeds, m[n].hypervisor, steps - 1, moreSteps - 1);
    }
  }

  predicate AllLead(m: Reasons, seeds: Reasons) {
    forall k | k in m :: LeadsToSeed(m, seeds, k, |m|)
  }

  lemma LinkLeads(before: Reasons, seeds: Reasons, l: Link)
    requires AllLead(before, seeds) && l.host in before && l.guest !in before
    ensures AllLead(before[l.guest := Via(l.host)], seeds)
  {
    var after := before[l.guest := Via(l.host)];
    assert after.Keys == before.Keys + {l.guest} && |after| == |before| + 1;
    forall k | k in after
      ensures LeadsToSeed(after, seeds, k, |after|)
    {
      if k == l.guest {
        LeadsStill(before, after, seeds, l.host, |before|, |before|);
      } else {
        LeadsStill(before, after, seeds, k, |before|, |after|);
      }
    }
  }

  lemma {:induction false} PassLeads(m: Reasons, seeds: Reasons, links: seq<Link>)
    requires AllLead(m, seeds)
    ensures AllLead(Pass(m, links), seeds)
  {
    if links != [] {
      var front, l := links[..|links| - 1], links[|links| - 1];
      PassLeads(m, seeds, front);
      var before := Pass(m, front);
      if l.host in before && l.guest !in before {
        LinkLeads(before, seeds, l);
      }
    }
  }

  lemma {:induction false} FixpointLeads(m: Reasons, seeds: Reasons, links: seq<Link>)
    requires AllLead(m, seeds)
    ensures AllLead(Fixpoint(m, links), seeds)
    decreases Guests(links) - m.Keys
  {
    PassGrows(m, links);
    if Pass(m, links) != m {
      PassLeads(m, seeds, links);
      FixpointLeads(Pass(m, links), seeds, links);
    }
  }

  /** Inherited reasons never go round in a circle, however the configuration does: from any
      machine they lead to one that is expected off in its own right. */
  lemma ReasonsLeadToASeed(servers: seq<Server>, n: string)
    requires n in OnDemandOf(servers)
    ensures LeadsToSeed(OnDemandOf(servers), Seeded(servers), n, |OnDemandOf(servers)|)
  {
    FixpointLeads(Seeded(servers), Seeded(servers), Links(servers));
  }

  // -- how a reason is written -----------------------------------------------

  /** The string the source stores for a reason. */
  function Text(why: Reason): string {
    match why
    case Wol => "wol"
    case Manual => "(manual)"
    case Via(h) => h
  }

  /** The strings tell the reasons apart exactly as long as no hypervisor is called "wol" or
      "(manual)". The second is no valid server name; the first is one. */
  lemma TextIsUnambiguous(h: string)
    ensures (forall why :: Text(why) == Text(Via(h)) ==> why == Via(h))
       <==> h != "wol" && h != "(manual)"
  {
    assert Text(Wol) == "wol" && Text(Manual) == "(manual)";
    if h == "wol" {
      assert Text(Wol) == Text(Via(h)) && Wol != Via(h);
    } else if h == "(manual)" {
      assert Text(Manual) == Text(Via(h)) && Manual != Via(h);
    }
  }
}
