/** Exactly when a rename on a server's page keeps who is expected off, and why. */
module RenameReasons {
  import opened Fleet
  import opened OnDemand
  import opened Rename
  import opened Settings
  import opened PageRename

  // -- one guest, linked in another way --------------------------------------

  /** The entries differ only in what links there are to the guest `k`. */
  ghost predicate SameButFor(a: seq<Server>, b: seq<Server>, k: string) {
    && (forall l: Link | l.guest != k :: l in Links(a) <==> l in Links(b))
    && (forall n :: (HasMac(a, n) <==> HasMac(b, n)) && (IsManual(a, n) <==> IsManual(b, n)))
  }

  ghost predicate OneLink(links: seq<Link>, k: string) {
    forall l, m | l in links && m in links && l.guest == k && m.guest == k :: l == m
  }

  /** `link` is the only one to `k`, if any is. */
  ghost predicate LinkedBy(servers: seq<Server>, k: string, link: Option<Link>) {
    forall l :: (l in Links(servers) && l.guest == k) <==> link == Some(l)
  }

  /** Why a machine is expected off, by its address, its flag and its link. `off`: the machines that are
      expected off when nothing links to it. */
  function ReasonGiven(mac: bool, manual: bool, link: Option<Link>, off: set<string>): Option<Reason> {
    if mac then Some(Wol)
    else if link.Some? && link.value.onDemand then Some(Via(link.value.host))
    else if manual then Some(Manual)
    else if link.Some? && link.value.host in off then Some(Via(link.value.host))
    else None
  }

  function At(m: Reasons, n: string): Option<Reason> {
    if n in m then Some(m[n]) else None
  }

  lemma FlaggedIsLinked(servers: seq<Server>, k: string, link: Option<Link>)
    requires LinkedBy(servers, k, link)
    ensures IsFlagged(servers, k) <==> link.Some? && link.value.onDemand
  {
    if IsFlagged(servers, k) {
      var l :| l in Links(servers) && l.guest == k && l.onDemand;
      assert link == Some(l);
    }
    if link.Some? && link.value.onDemand {
      assert link.value in Links(servers) && link.value.guest == k;
    }
  }

  /** What is expected off without the link is expected off with it. */
  lemma LinkAdds(x: seq<Server>, c: seq<Server>, k: string)
    requires SameButFor(x, c, k) && LinkedBy(c, k, None)
    ensures OnDemandOf(c).Keys <= OnDemandOf(x).Keys
  {
    DomainIsLeast(x);
    DomainIsLeast(c);
    var d := OnDemandOf(x).Keys;
    forall l | l in Links(c)
      ensures l.guest != k && l in Links(x)
    {
      assert l.guest == k ==> None == Some(l);
    }
    assert ClosedUnder(Links(c), d);
    forall n | IsSeed(c, n)
      ensures n in d
    {
      if IsFlagged(c, n) {
        var l :| l in Links(c) && l.guest == n && l.onDemand;
        assert l in Links(x) && IsFlagged(x, n);
      }
      assert IsSeed(x, n);
    }
  }

  /** And if it makes no difference to `k`, it makes none. */
  lemma LinkAddsNothing(x: seq<Server>, c: seq<Server>, k: string, link: Option<Link>)
    requires SameButFor(x, c, k) && LinkedBy(c, k, None) && LinkedBy(x, k, link)
    requires !IsSeed(x, k) && (link.Some? ==> link.value.host !in OnDemandOf(c))
    ensures OnDemandOf(x).Keys <= OnDemandOf(c).Keys
  {
    DomainIsLeast(x);
    DomainIsLeast(c);
    var d := OnDemandOf(c).Keys;
    forall l | l in Links(x) && l.host in d
      ensures l.guest in d
    {
      assert l.guest == k ==> link == Some(l);
      assert l in Links(c);
    }
    forall n | IsSeed(x, n)
      ensures n in d
    {
      if IsFlagged(x, n) {
        var l :| l in Links(x) && l.guest == n && l.onDemand;
        assert l in Links(c) && IsFlagged(c, n);
      }
      assert IsSeed(c, n);
    }
  }

  lemma ReasonOfLinked(x: seq<Server>, c: seq<Server>, k: string, link: Option<Link>)
    requires SameButFor(x, c, k) && LinkedBy(c, k, None) && LinkedBy(x, k, link)
    requires k in OnDemandOf(x)
    ensures At(OnDemandOf(x), k) == ReasonGiven(HasMac(x, k), IsManual(x, k), link, OnDemandOf(c).Keys)
  {
    ReasonPrecedence(x, k);
    FlaggedIsLinked(x, k, link);
    if HasMac(x, k) {
    } else if IsFlagged(x, k) {
      var i :| 0 <= i < |Links(x)| && FlagsFirst(Links(x), i, k) && OnDemandOf(x)[k] == Via(Links(x)[i].host);
      assert link == Some(Links(x)[i]);
    } else if !IsManual(x, k) {
      var h := OnDemandOf(x)[k].hypervisor;
      var l :| l in Links(x) && l.host == h && l.guest == k;
      assert link == Some(l);
      if h !in OnDemandOf(c) {
        LinkAddsNothing(x, c, k, link);
      }
    }
  }

  /** The reason of the one guest is the one its link gives. */
  lemma ReasonIsGiven(x: seq<Server>, c: seq<Server>, k: string, link: Option<Link>)
    requires SameButFor(x, c, k) && LinkedBy(c, k, None) && LinkedBy(x, k, link)
    ensures At(OnDemandOf(x), k) == ReasonGiven(HasMac(x, k), IsManual(x, k), link, OnDemandOf(c).Keys)
  {
    if k in OnDemandOf(x) {
      ReasonOfLinked(x, c, k, link);
    } else {
      DomainIsLeast(x);
      LinkAdds(x, c, k);
      FlaggedIsLinked(x, k, link);
      assert !IsSeed(x, k);
      assert link.Some? ==> link.value in Links(x);
    }
  }

  /** Linked another way with the same reason, the machines expected off are the same. */
  lemma SameOff(a: seq<Server>, b: seq<Server>, c: seq<Server>, k: string, la: Option<Link>, lb: Option<Link>)
    requires SameButFor(a, c, k) && SameButFor(b, c, k) && LinkedBy(c, k, None)
    requires LinkedBy(a, k, la) && LinkedBy(b, k, lb)
    requires At(OnDemandOf(a), k) == At(OnDemandOf(b), k)
    ensures OnDemandOf(a).Keys <= OnDemandOf(b).Keys
  {
    DomainIsLeast(a);
    DomainIsLeast(b);
    var d := OnDemandOf(b).Keys;
    ReasonIsGiven(a, c, k, la);
    ReasonIsGiven(b, c, k, lb);
    if k !in d {
      StaysOff(b, c, k, lb);
      assert !IsSeed(a, k);
      FlaggedIsLinked(a, k, la);
      LinkAddsNothing(a, c, k, la);
      LinkAdds(b, c, k);
    } else {
      SameOffWith(a, b, c, k);
    }
  }

  lemma StaysOff(b: seq<Server>, c: seq<Server>, k: string, lb: Option<Link>)
    requires SameButFor(b, c, k) && LinkedBy(c, k, None) && LinkedBy(b, k, lb) && k !in OnDemandOf(b)
    ensures !IsSeed(b, k)
  {
    DomainIsLeast(b);
  }

  lemma SameOffWith(a: seq<Server>, b: seq<Server>, c: seq<Server>, k: string)
    requires SameButFor(a, c, k) && SameButFor(b, c, k) && k in OnDemandOf(b)
    ensures OnDemandOf(a).Keys <= OnDemandOf(b).Keys
  {
    DomainIsLeast(a);
    DomainIsLeast(b);
    var d := OnDemandOf(b).Keys;
    forall l | l in Links(a) && l.host in d
      ensures l.guest in d
    {
      if l.guest != k { assert l in Links(c) && l in Links(b); }
    }
    forall n | IsSeed(a, n)
      ensures n in d
    {
      if n != k {
        if IsFlagged(a, n) {
          var l :| l in Links(a) && l.guest == n && l.onDemand;
          assert l in Links(c) && l in Links(b) && IsFlagged(b, n);
        }
        assert IsSeed(b, n);
      }
    }
  }

  lemma SameReasonOfOthers(a: seq<Server>, b: seq<Server>, c: seq<Server>, k: string, n: string)
    requires SameButFor(a, c, k) && SameButFor(b, c, k) && OneHost(Links(a)) && OneHost(Links(b))
    requires n != k && n in OnDemandOf(a) && n in OnDemandOf(b)
    ensures OnDemandOf(a)[n] == OnDemandOf(b)[n]
  {
    ReasonPrecedence(a, n);
    ReasonPrecedence(b, n);
    assert forall l: Link | l.guest == n :: l in Links(a) <==> l in Links(b);
    assert IsFlagged(a, n) <==> IsFlagged(b, n);
  }

  /** `a` and `b` differ from each other, and from `c`, only in the link to `k`; in `c` there is none. */
  ghost predicate DifferByLink(a: seq<Server>, b: seq<Server>, c: seq<Server>, k: string, la: Option<Link>,
                               lb: Option<Link>) {
    && SameButFor(a, c, k) && SameButFor(b, c, k) && LinkedBy(c, k, None)
    && LinkedBy(a, k, la) && LinkedBy(b, k, lb) && OneHost(Links(a)) && OneHost(Links(b))
  }

  /** Fleets that differ only in the link to one guest give the same machines the same reasons exactly when
      they give that guest the same. */
  lemma SameReasonsIff(a: seq<Server>, b: seq<Server>, c: seq<Server>, k: string, la: Option<Link>, lb: Option<Link>)
    requires DifferByLink(a, b, c, k, la, lb)
    ensures HasMac(a, k) == HasMac(b, k) && IsManual(a, k) == IsManual(b, k)
    ensures OnDemandOf(a) == OnDemandOf(b) <==>
              ReasonGiven(HasMac(b, k), IsManual(b, k), la, OnDemandOf(c).Keys) ==
              ReasonGiven(HasMac(b, k), IsManual(b, k), lb, OnDemandOf(c).Keys)
  {
    ReasonIsGiven(a, c, k, la);
    ReasonIsGiven(b, c, k, lb);
    if At(OnDemandOf(a), k) == At(OnDemandOf(b), k) {
      SameOff(a, b, c, k, la, lb);
      SameOff(b, a, c, k, lb, la);
      forall n | n in OnDemandOf(a)
        ensures OnDemandOf(a)[n] == OnDemandOf(b)[n]
      {
        if n != k {
          SameReasonOfOthers(a, b, c, k, n);
        }
      }
    }
  }

  // -- the rename ------------------------------------------------------------

  predicate ListsAs(s: Server, l: Link) {
    s.name == l.host && exists g :: g in s.guests && g.name == l.guest && g.onDemand == l.onDemand
  }

  lemma LinkIs(servers: seq<Server>, l: Link)
    ensures l in Links(servers) <==> exists i :: 0 <= i < |servers| && ListsAs(servers[i], l)
  {
    LinksByMembership(servers, l);
    if s :| s in servers && l in LinksOf(s) {
      var i :| 0 <= i < |servers| && servers[i] == s;
      var j :| 0 <= j < |s.guests| && LinksOf(s)[j] == l;
      assert s.guests[j] in s.guests && ListsAs(servers[i], l);
    }
    if i :| 0 <= i < |servers| && ListsAs(servers[i], l) {
      var g :| g in servers[i].guests && g.name == l.guest && g.onDemand == l.onDemand;
      var j :| 0 <= j < |servers[i].guests| && servers[i].guests[j] == g;
      assert LinksOf(servers[i])[j] == l && servers[i] in servers;
    }
  }

  /** The fleet with no hypervisor listing `name`. */
  function Unlinked(servers: seq<Server>, name: string): seq<Server> {
    RelinkedAll(servers, name, NoLink, false)
  }

  /** The renamed fleet in which no hypervisor lists the server. */
  function RenamedUnlinked(servers: seq<Server>, from: string, to: string): (r: seq<Server>)
    ensures |r| == |servers|
  {
    SubServers(Unlinked(servers, from), from, to)
  }

  /** The link the form asks for. */
  function FormLink(form: Form, servers: seq<Server>, original: string): Option<Link> {
    var link := CheckLink(form, servers, Some(original));
    if link.LinkTo? then Some(Link(link.hypervisor, form.name, form.box)) else None
  }

  function FirstLink(links: seq<Link>, n: string): (r: Option<Link>)
    ensures r.Some? ==> r.value in links && r.value.guest == n
    ensures r.None? ==> forall l | l in links :: l.guest != n
  {
    if links == [] then None else if links[0].guest == n then Some(links[0]) else FirstLink(links[1..], n)
  }

  /** The link on record. */
  function StoredLink(servers: seq<Server>, name: string): Option<Link> {
    FirstLink(Links(servers), name)
  }

  lemma GuestsOfOthers(form: Form, servers: seq<Server>, exclude: map<Job, seq<string>>, original: string, i: nat,
                       g: Guest)
    requires IsRename(form, servers, exclude, original) && i < |servers| && g.name != form.name
    ensures g in AfterEdit(form, servers, original)[i].guests <==> g in servers[i].guests && g.name != original
    ensures g in RenamedUnlinked(servers, original, form.name)[i].guests <==>
              g in servers[i].guests && g.name != original
  {
    GuestsAfterRename(form, servers, exclude, original, i, g);
    SubGuestsAre(Without(servers[i].guests, original) + [], original, form.name, g);
  }

  lemma UnlinkedHasNone(form: Form, servers: seq<Server>, exclude: map<Job, seq<string>>, original: string, i: nat,
                        g: Guest)
    requires IsRename(form, servers, exclude, original) && i < |servers| && g.name == form.name
    ensures g !in RenamedUnlinked(servers, original, form.name)[i].guests
  {
    NoneHasTheNewName(form, servers, exclude, original);
    assert servers[i] in servers;
    SubGuestsAre(Without(servers[i].guests, original) + [], original, form.name, g);
  }

  lemma FieldsOfUnlinked(form: Form, servers: seq<Server>, exclude: map<Job, seq<string>>, original: string, i: nat)
    requires IsRename(form, servers, exclude, original) && i < |servers|
    ensures var c := RenamedUnlinked(servers, original, form.name)[i];
            c == SubServer(servers[i], original, form.name).(guests := c.guests)
  {
  }

  ghost predicate SameFields(a: seq<Server>, b: seq<Server>) {
    |a| == |b| && forall i | 0 <= i < |a| :: a[i] == b[i].(guests := a[i].guests)
  }

  lemma SameFlags(a: seq<Server>, b: seq<Server>, n: string)
    requires SameFields(a, b)
    ensures HasMac(a, n) ==> HasMac(b, n)
    ensures IsManual(a, n) ==> IsManual(b, n)
  {
    forall s | s in a
      ensures exists t :: t in b && s == t.(guests := s.guests)
    {
      var i :| 0 <= i < |a| && a[i] == s;
      assert b[i] in b;
    }
  }

  /** Entries and their links, apart from those to one guest. */
  lemma SameButForOne(a: seq<Server>, b: seq<Server>, k: string)
    requires SameFields(a, b)
    requires forall i, g: Guest | 0 <= i < |a| && g.name != k :: g in a[i].guests <==> g in b[i].guests
    ensures SameButFor(a, b, k)
  {
    forall l: Link | l.guest != k
      ensures l in Links(a) <==> l in Links(b)
    {
      LinkIs(a, l);
      LinkIs(b, l);
      forall i | 0 <= i < |a|
        ensures ListsAs(a[i], l) <==> ListsAs(b[i], l)
      {
        assert a[i] == b[i].(guests := a[i].guests);
      }
    }
    assert SameFields(b, a);
    forall n
      ensures (HasMac(a, n) <==> HasMac(b, n)) && (IsManual(a, n) <==> IsManual(b, n))
    {
      SameFlags(a, b, n);
      SameFlags(b, a, n);
    }
  }

  lemma AfterIsSameBut(form: Form, servers: seq<Server>, exclude: map<Job, seq<string>>, original: string)
    requires IsRename(form, servers, exclude, original)
    ensures SameButFor(AfterEdit(form, servers, original), RenamedUnlinked(servers, original, form.name), form.name)
  {
    var a, c := AfterEdit(form, servers, original), RenamedUnlinked(servers, original, form.name);
    forall i | 0 <= i < |a|
      ensures a[i] == c[i].(guests := a[i].guests)
    {
      FieldsAfterRename(form, servers, exclude, original, i);
      FieldsOfUnlinked(form, servers, exclude, original, i);
    }
    forall i, g: Guest | 0 <= i < |a| && g.name != form.name
      ensures g in a[i].guests <==> g in c[i].guests
    {
      GuestsOfOthers(form, servers, exclude, original, i, g);
    }
    SameButForOne(a, c, form.name);
  }

  lemma RenamedIsSameBut(form: Form, servers: seq<Server>, exclude: map<Job, seq<string>>, original: string)
    requires IsRename(form, servers, exclude, original)
    ensures SameButFor(SubServers(servers, original, form.name), RenamedUnlinked(servers, original, form.name),
                       form.name)
  {
    var b, c := SubServers(servers, original, form.name), RenamedUnlinked(servers, original, form.name);
    forall i, g: Guest | 0 <= i < |b| && g.name != form.name
      ensures g in b[i].guests <==> g in c[i].guests
    {
      GuestsOfOthers(form, servers, exclude, original, i, g);
      SubGuestsAre(servers[i].guests, original, form.name, g);
    }
    SameButForOne(b, c, form.name);
  }

  lemma UnlinkedIsLinkedByNone(form: Form, servers: seq<Server>, exclude: map<Job, seq<string>>, original: string)
    requires IsRename(form, servers, exclude, original)
    ensures LinkedBy(RenamedUnlinked(servers, original, form.name), form.name, None)
  {
    var c := RenamedUnlinked(servers, original, form.name);
    forall l: Link | l.guest == form.name
      ensures l !in Links(c)
    {
      LinkIs(c, l);
      forall i, g | 0 <= i < |c| && g in c[i].guests
        ensures g.name != form.name
      {
        if g.name == form.name { UnlinkedHasNone(form, servers, exclude, original, i, g); }
      }
    }
  }

  lemma AfterListsIt(form: Form, servers: seq<Server>, exclude: map<Job, seq<string>>, original: string, i: nat,
                     l: Link)
    requires IsRename(form, servers, exclude, original) && i < |servers| && l.guest == form.name
    ensures ListsAs(AfterEdit(form, servers, original)[i], l) <==>
              FormLink(form, servers, original) == Some(l) && servers[i].name == l.host
  {
    var a, link := AfterEdit(form, servers, original), CheckLink(form, servers, Some(original));
    NoneHasTheNewName(form, servers, exclude, original);
    FieldsAfterRename(form, servers, exclude, original, i);
    assert servers[i] in servers;
    forall g: Guest | g.name == form.name
      ensures g in a[i].guests <==>
                link.LinkTo? && servers[i].name == link.hypervisor && g == Guest(link.vmId, form.name, form.box)
    {
      GuestsAfterRename(form, servers, exclude, original, i, g);
    }
    if link.LinkTo? {
      LinkIsSound(form, servers, Some(original));
    }
  }

  lemma AfterIsLinked(form: Form, servers: seq<Server>, exclude: map<Job, seq<string>>, original: string)
    requires IsRename(form, servers, exclude, original)
    ensures LinkedBy(AfterEdit(form, servers, original), form.name, FormLink(form, servers, original))
  {
    var a, link := AfterEdit(form, servers, original), CheckLink(form, servers, Some(original));
    forall l: Link
      ensures (l in Links(a) && l.guest == form.name) <==> FormLink(form, servers, original) == Some(l)
    {
      if l.guest == form.name {
        LinkIs(a, l);
        forall i | 0 <= i < |servers|
          ensures ListsAs(a[i], l) <==> FormLink(form, servers, original) == Some(l) && servers[i].name == l.host
        {
          AfterListsIt(form, servers, exclude, original, i, l);
        }
        if link.LinkTo? {
          LinkIsSound(form, servers, Some(original));
          var i :| 0 <= i < |servers| && Names(servers)[i] == link.hypervisor;
          assert servers[i].name == link.hypervisor;
        }
      }
    }
  }

  lemma OneEntry(servers: seq<Server>, exclude: map<Job, seq<string>>, i: nat, j: nat, g: Guest, h: Guest)
    requires WellFormed(servers, exclude) && i < |servers| && j < |servers|
    requires g in servers[i].guests && h in servers[j].guests && g.name == h.name
    ensures i == j && g == h && g.name != servers[i].name
  {
    assert GoodServer(servers, servers[i]);
  }

  lemma TwoLinks(servers: seq<Server>, exclude: map<Job, seq<string>>, l: Link, m: Link)
    requires WellFormed(servers, exclude) && l in Links(servers) && m in Links(servers) && l.guest == m.guest
    ensures l == m && l.host != l.guest && l.host in Names(servers)
  {
    LinkIs(servers, l);
    LinkIs(servers, m);
    var i :| 0 <= i < |servers| && ListsAs(servers[i], l);
    var j :| 0 <= j < |servers| && ListsAs(servers[j], m);
    var g :| g in servers[i].guests && g.name == l.guest && g.onDemand == l.onDemand;
    var h :| h in servers[j].guests && h.name == m.guest && h.onDemand == m.onDemand;
    OneEntry(servers, exclude, i, j, g, h);
    assert Names(servers)[i] == l.host;
  }

  lemma StoredIsOnly(form: Form, servers: seq<Server>, exclude: map<Job, seq<string>>, original: string)
    requires IsRename(form, servers, exclude, original)
    ensures OneLink(Links(servers), original)
    ensures forall l | l in Links(servers) && l.guest == original :: l.host != original && l.host != form.name
  {
    forall l, m | l in Links(servers) && m in Links(servers) && l.guest == original && m.guest == original
      ensures l == m && l.host != original && l.host != form.name
    {
      TwoLinks(servers, exclude, l, m);
    }
  }

  function UnderName(link: Option<Link>, name: string): Option<Link> {
    if link.Some? then Some(link.value.(guest := name)) else None
  }

  lemma RenamedIsLinked(form: Form, servers: seq<Server>, exclude: map<Job, seq<string>>, original: string)
    requires IsRename(form, servers, exclude, original)
    ensures var stored := StoredLink(servers, original);
            LinkedBy(SubServers(servers, original, form.name), form.name, UnderName(stored, form.name))
  {
    var b, stored := SubServers(servers, original, form.name), StoredLink(servers, original);
    LinksRenamed(servers, original, form.name);
    StoredIsOnly(form, servers, exclude, original);
    NoneHasTheNewName(form, servers, exclude, original);
    LinksAvoid(servers, form.name);
    forall l: Link
      ensures (l in Links(b) && l.guest == form.name) <==>
                (stored.Some? && l == stored.value.(guest := form.name))
    {
      RenamedLinkIs(servers, original, form.name, l);
    }
  }

  lemma RenamedLinkIs(servers: seq<Server>, from: string, to: string, l: Link)
    requires from != to && Links(SubServers(servers, from, to)) == SubLinks(Links(servers), from, to)
    requires OneLink(Links(servers), from) && Avoids(Links(servers), to)
    requires forall m | m in Links(servers) && m.guest == from :: m.host != from
    ensures (l in Links(SubServers(servers, from, to)) && l.guest == to) <==>
              (StoredLink(servers, from).Some? && l == StoredLink(servers, from).value.(guest := to))
  {
    var links, renamed := Links(servers), SubLinks(Links(servers), from, to);
    if l in renamed && l.guest == to {
      var i :| 0 <= i < |renamed| && renamed[i] == l;
      assert links[i] in links;
    }
    if StoredLink(servers, from).Some? && l == StoredLink(servers, from).value.(guest := to) {
      var i :| 0 <= i < |links| && links[i] == StoredLink(servers, from).value;
      assert renamed[i] == l;
    }
  }

  lemma UnlinkedRenamed(form: Form, servers: seq<Server>, exclude: map<Job, seq<string>>, original: string, h: string)
    requires IsRename(form, servers, exclude, original) && h != original && h != form.name
    ensures h in OnDemandOf(Unlinked(servers, original)) <==>
              h in OnDemandOf(RenamedUnlinked(servers, original, form.name))
  {
    NoneHasTheNewName(form, servers, exclude, original);
    var u := Unlinked(servers, original);
    forall i, j | 0 <= i < |u| && 0 <= j < |u[i].guests|
      ensures u[i].guests[j].name != form.name
    {
      assert u[i].guests[j] in u[i].guests && servers[i] in servers;
    }
    assert Fresh(u, form.name);
    OnDemandRenamed(u, original, form.name);
    assert Sub(h, original, form.name) == h;
  }

  lemma OwnFlagsRenamed(form: Form, servers: seq<Server>, exclude: map<Job, seq<string>>, original: string)
    requires IsRename(form, servers, exclude, original)
    ensures HasMac(SubServers(servers, original, form.name), form.name) <==> HasMac(servers, original)
    ensures IsManual(SubServers(servers, original, form.name), form.name) <==> IsManual(servers, original)
  {
    var b := SubServers(servers, original, form.name);
    var j := OwnPlace(form, servers, exclude, original);
    assert servers[j] in servers && b[j] in b;
    forall s | s in servers && s.name == original
      ensures s == servers[j]
    {
      var i :| 0 <= i < |servers| && servers[i] == s;
    }
    forall s | s in b && s.name == form.name
      ensures s == b[j]
    {
      var i :| 0 <= i < |b| && b[i] == s;
    }
  }

  lemma OwnPlace(form: Form, servers: seq<Server>, exclude: map<Job, seq<string>>, original: string) returns (j: nat)
    requires IsRename(form, servers, exclude, original)
    ensures j < |servers| && servers[j].name == original
    ensures forall i | 0 <= i < |servers| && Sub(servers[i].name, original, form.name) == form.name :: i == j
  {
    NoneHasTheNewName(form, servers, exclude, original);
    j :| 0 <= j < |servers| && Names(servers)[j] == original;
    forall i | 0 <= i < |servers|
      ensures servers[i].name != form.name && (servers[i].name == original ==> i == j)
    {
      assert servers[i] in servers;
    }
  }

  lemma {:induction false} OneHostRenamed(form: Form, servers: seq<Server>, exclude: map<Job, seq<string>>,
                                          original: string)
    requires IsRename(form, servers, exclude, original)
    ensures OneHost(Links(AfterEdit(form, servers, original)))
    ensures OneHost(Links(SubServers(servers, original, form.name)))
  {
    EditKeepsOwners(form, servers, exclude, original);
    OneOwnerOneHost(AfterEdit(form, servers, original));
    OneOwnerOneHost(servers);
    NoneHasTheNewName(form, servers, exclude, original);
    LinksAvoid(servers, form.name);
    LinksRenamed(servers, original, form.name);
    SubKeepsOneHost(Links(servers), original, form.name);
  }

  lemma SubKeepsOneHost(links: seq<Link>, from: string, to: string)
    requires OneHost(links) && Avoids(links, to)
    ensures OneHost(SubLinks(links, from, to))
  {
    var r := SubLinks(links, from, to);
    forall l, m | l in r && m in r && l.guest == m.guest
      ensures l.host == m.host
    {
      var i :| 0 <= i < |r| && r[i] == l;
      var j :| 0 <= j < |r| && r[j] == m;
      assert links[i] in links && links[j] in links;
    }
  }

  lemma HostsAreNeither(form: Form, servers: seq<Server>, exclude: map<Job, seq<string>>, original: string)
    requires IsRename(form, servers, exclude, original)
    ensures var off, others := OnDemandOf(Unlinked(servers, original)).Keys,
                               OnDemandOf(RenamedUnlinked(servers, original, form.name)).Keys;
            && (FormLink(form, servers, original).Some? ==>
                 var h := FormLink(form, servers, original).value.host; h in off <==> h in others)
            && (StoredLink(servers, original).Some? ==>
                 var h := StoredLink(servers, original).value.host; h in off <==> h in others)
  {
    if FormLink(form, servers, original).Some? {
      LinkIsSound(form, servers, Some(original));
      UnlinkedRenamed(form, servers, exclude, original, FormLink(form, servers, original).value.host);
    }
    StoredIsOnly(form, servers, exclude, original);
    if StoredLink(servers, original).Some? {
      UnlinkedRenamed(form, servers, exclude, original, StoredLink(servers, original).value.host);
    }
  }

  lemma RenameDiffersByLink(form: Form, servers: seq<Server>, exclude: map<Job, seq<string>>, original: string)
    requires IsRename(form, servers, exclude, original)
    ensures DifferByLink(AfterEdit(form, servers, original), SubServers(servers, original, form.name),
                         RenamedUnlinked(servers, original, form.name), form.name,
                         FormLink(form, servers, original), UnderName(StoredLink(servers, original), form.name))
  {
    AfterIsSameBut(form, servers, exclude, original);
    RenamedIsSameBut(form, servers, exclude, original);
    UnlinkedIsLinkedByNone(form, servers, exclude, original);
    AfterIsLinked(form, servers, exclude, original);
    RenamedIsLinked(form, servers, exclude, original);
    OneHostRenamed(form, servers, exclude, original);
  }

  /** The reasons stay those of the renamed fleet exactly when the server's own does. */
  lemma ReasonsByLink(form: Form, servers: seq<Server>, exclude: map<Job, seq<string>>, original: string)
    requires IsRename(form, servers, exclude, original)
    ensures var mac, manual := HasMac(servers, original), IsManual(servers, original);
            var off := OnDemandOf(RenamedUnlinked(servers, original, form.name)).Keys;
            OnDemandOf(AfterEdit(form, servers, original)) == OnDemandOf(SubServers(servers, original, form.name)) <==>
              ReasonGiven(mac, manual, FormLink(form, servers, original), off) ==
              ReasonGiven(mac, manual, StoredLink(servers, original), off)
  {
    RenameDiffersByLink(form, servers, exclude, original);
    OwnFlagsRenamed(form, servers, exclude, original);
    GivenByLink(AfterEdit(form, servers, original), SubServers(servers, original, form.name),
                RenamedUnlinked(servers, original, form.name), form.name, FormLink(form, servers, original),
                StoredLink(servers, original), HasMac(servers, original), IsManual(servers, original));
  }

  lemma GivenByLink(a: seq<Server>, b: seq<Server>, c: seq<Server>, k: string, la: Option<Link>, stored: Option<Link>,
                    mac: bool, manual: bool)
    requires DifferByLink(a, b, c, k, la, UnderName(stored, k)) && HasMac(b, k) == mac && IsManual(b, k) == manual
    ensures OnDemandOf(a) == OnDemandOf(b) <==>
              ReasonGiven(mac, manual, la, OnDemandOf(c).Keys) == ReasonGiven(mac, manual, stored, OnDemandOf(c).Keys)
  {
    SameReasonsIff(a, b, c, k, la, UnderName(stored, k));
  }

  lemma KeptIsRenamed(form: Form, servers: seq<Server>, exclude: map<Job, seq<string>>, original: string)
    requires IsRename(form, servers, exclude, original)
    ensures Renamed(OnDemandOf(servers), OnDemandOf(AfterEdit(form, servers, original)), original, form.name) <==>
              OnDemandOf(AfterEdit(form, servers, original)) == OnDemandOf(SubServers(servers, original, form.name))
  {
    var m, r, q := OnDemandOf(servers), OnDemandOf(AfterEdit(form, servers, original)),
                   OnDemandOf(SubServers(servers, original, form.name));
    NoneHasTheNewName(form, servers, exclude, original);
    OnDemandRenamed(servers, original, form.name);
    if Renamed(m, r, original, form.name) {
      RenamedIsUnique(m, r, q, original, form.name);
    }
  }

  /** A rename on the page keeps who is expected off, and why, exactly when the server's own reason is the
      same with the link in the form as with the one on record. */
  lemma RenameKeepsReasonsIff(form: Form, servers: seq<Server>, exclude: map<Job, seq<string>>, original: string)
    requires IsRename(form, servers, exclude, original)
    ensures var mac, manual := HasMac(servers, original), IsManual(servers, original);
            var off := OnDemandOf(Unlinked(servers, original)).Keys;
            Renamed(OnDemandOf(servers), OnDemandOf(AfterEdit(form, servers, original)), original, form.name) <==>
              ReasonGiven(mac, manual, FormLink(form, servers, original), off) ==
              ReasonGiven(mac, manual, StoredLink(servers, original), off)
  {
    ReasonsByLink(form, servers, exclude, original);
    KeptIsRenamed(form, servers, exclude, original);
    HostsAreNeither(form, servers, exclude, original);
  }
}
