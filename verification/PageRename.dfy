/** Renaming a server on its page: what the saved fleet then means. */
module PageRename {
  import opened Fleet
  import opened OnDemand
  import opened Rename
  import opened Settings

  predicate Lists(s: Server, name: string) {
    exists g :: g in s.guests && g.name == name
  }

  predicate IsGuest(servers: seq<Server>, name: string) {
    exists i :: 0 <= i < |servers| && Lists(servers[i], name)
  }

  /** The form repeats the stored link of `original`: its hypervisor, VM id and box, or none. It is the
      form as the page shows it, with another name typed in. */
  predicate LinkIsStored(form: Form, servers: seq<Server>, original: string) {
    var link := CheckLink(form, servers, Some(original));
    && (forall s, g | s in servers && g in s.guests && g.name == original ::
          link == LinkTo(s.name, g.vmId) && form.box == g.onDemand)
    && (link.LinkTo? ==> IsGuest(servers, original))
  }

  /** The entries agree, their guests in any order. */
  ghost predicate SameButOrder(s: Server, t: Server) {
    s == t.(guests := s.guests) && forall g :: g in s.guests <==> g in t.guests
  }

  ghost predicate SameFleet(a: seq<Server>, b: seq<Server>) {
    |a| == |b| && forall i | 0 <= i < |a| :: SameButOrder(a[i], b[i])
  }

  /** An accepted form that changes the name and no other field of the server's own entry. */
  ghost predicate IsRename(form: Form, servers: seq<Server>, exclude: map<Job, seq<string>>, original: string) {
    && WellFormed(servers, exclude) && EditOk(form, servers, original) && form.name != original
    && forall s | s in servers && s.name == original :: OnlyRenames(form, s)
  }

  lemma NoneHasTheNewName(form: Form, servers: seq<Server>, exclude: map<Job, seq<string>>, original: string)
    requires IsRename(form, servers, exclude, original)
    ensures forall s | s in servers :: s.name != form.name
    ensures forall s, g | s in servers && g in s.guests :: g.name != form.name && g.name != s.name
    ensures Fresh(servers, form.name)
  {
    forall s | s in servers
      ensures s.name != form.name && forall g | g in s.guests :: g.name != form.name && g.name != s.name
    {
      var i :| 0 <= i < |servers| && servers[i] == s;
      assert Names(servers)[i] == s.name && GoodServer(servers, servers[i]);
    }
  }

  lemma SubGuestsAre(guests: seq<Guest>, from: string, to: string, g: Guest)
    ensures g in SubGuests(guests, from, to) <==>
              (g in guests && g.name != from) ||
                (g.name == to && exists h :: h in guests && h.name == from && g == h.(name := to))
  {
    var r := SubGuests(guests, from, to);
    if g in r {
      var i :| 0 <= i < |r| && r[i] == g;
      assert guests[i] in guests;
    }
    if g in guests && g.name != from {
      var i :| 0 <= i < |guests| && guests[i] == g;
      assert r[i] == g;
    }
    if h :| h in guests && h.name == from && g == h.(name := to) {
      var i :| 0 <= i < |guests| && guests[i] == h;
      assert r[i] == g;
    }
  }

  lemma FieldsAfterRename(form: Form, servers: seq<Server>, exclude: map<Job, seq<string>>, original: string, i: nat)
    requires IsRename(form, servers, exclude, original) && i < |servers|
    ensures var e := AfterEdit(form, servers, original)[i];
            e == SubServer(servers[i], original, form.name).(guests := e.guests)
  {
    assert servers[i] in servers;
  }

  /** What the relinking leaves in one guest list. */
  lemma GuestsAfterRename(form: Form, servers: seq<Server>, exclude: map<Job, seq<string>>, original: string, i: nat,
                          g: Guest)
    requires IsRename(form, servers, exclude, original) && i < |servers|
    ensures var s, link := servers[i], CheckLink(form, servers, Some(original));
            g in AfterEdit(form, servers, original)[i].guests <==>
              (g in s.guests && g.name != original) ||
              (link.LinkTo? && s.name == link.hypervisor && g == Guest(link.vmId, form.name, form.box))
  {
    var s, link := servers[i], CheckLink(form, servers, Some(original));
    assert s in servers;
    NoneHasTheNewName(form, servers, exclude, original);
    GuestsAfterEdit(s, original, Entry(form), link, form.box, g);
    if link.LinkTo? {
      LinkIsSound(form, servers, Some(original));
    }
  }

  lemma LinkStaysInOne(form: Form, servers: seq<Server>, exclude: map<Job, seq<string>>, original: string, i: nat)
    requires IsRename(form, servers, exclude, original) && i < |servers|
    requires LinkIsStored(form, servers, original)
    ensures SameButOrder(AfterEdit(form, servers, original)[i], SubServer(servers[i], original, form.name))
  {
    var s, e := servers[i], AfterEdit(form, servers, original)[i];
    FieldsAfterRename(form, servers, exclude, original, i);
    forall g
      ensures g in e.guests <==> g in SubGuests(s.guests, original, form.name)
    {
      GuestsAfterRename(form, servers, exclude, original, i, g);
      SubGuestsAre(s.guests, original, form.name, g);
      StoredEntry(form, servers, exclude, original, i, g);
    }
  }

  lemma StoredEntry(form: Form, servers: seq<Server>, exclude: map<Job, seq<string>>, original: string, i: nat,
                    g: Guest)
    requires IsRename(form, servers, exclude, original) && i < |servers|
    requires LinkIsStored(form, servers, original)
    ensures var s, link := servers[i], CheckLink(form, servers, Some(original));
            (link.LinkTo? && s.name == link.hypervisor && g == Guest(link.vmId, form.name, form.box)) <==>
            (g.name == form.name && exists h :: h in s.guests && h.name == original && g == h.(name := form.name))
  {
    var s, link := servers[i], CheckLink(form, servers, Some(original));
    assert s in servers;
    if link.LinkTo? && s.name == link.hypervisor {
      var k :| 0 <= k < |servers| && Lists(servers[k], original);
      var h :| h in servers[k].guests && h.name == original;
      assert servers[k] in servers && link == LinkTo(servers[k].name, h.vmId);
      assert k == i;
    }
  }

  /** Renaming on the page saves the renamed fleet, up to the place of one guest in its list, exactly
      when the form repeats the stored link. Any other form also moves the server. */
  lemma RenameIsRelinkIff(form: Form, servers: seq<Server>, exclude: map<Job, seq<string>>, original: string)
    requires IsRename(form, servers, exclude, original)
    ensures SameFleet(AfterEdit(form, servers, original), SubServers(servers, original, form.name))
       <==> LinkIsStored(form, servers, original)
  {
    var after, renamed := AfterEdit(form, servers, original), SubServers(servers, original, form.name);
    if LinkIsStored(form, servers, original) {
      forall i | 0 <= i < |servers|
        ensures SameButOrder(after[i], renamed[i])
      {
        LinkStaysInOne(form, servers, exclude, original, i);
      }
    }
    if SameFleet(after, renamed) {
      SameFleetIsLinked(form, servers, exclude, original);
    }
  }

  lemma SameFleetIsLinked(form: Form, servers: seq<Server>, exclude: map<Job, seq<string>>, original: string)
    requires IsRename(form, servers, exclude, original)
    requires SameFleet(AfterEdit(form, servers, original), SubServers(servers, original, form.name))
    ensures LinkIsStored(form, servers, original)
  {
    var after, link := AfterEdit(form, servers, original), CheckLink(form, servers, Some(original));
    forall s, g | s in servers && g in s.guests && g.name == original
      ensures link == LinkTo(s.name, g.vmId) && form.box == g.onDemand
    {
      var i :| 0 <= i < |servers| && servers[i] == s;
      GuestIsTheLink(form, servers, exclude, original, i, g);
    }
    if link.LinkTo? {
      LinkIsSound(form, servers, Some(original));
      var i :| 0 <= i < |servers| && Names(servers)[i] == link.hypervisor;
      LinkIsTheGuest(form, servers, exclude, original, i);
    }
  }

  lemma GuestIsTheLink(form: Form, servers: seq<Server>, exclude: map<Job, seq<string>>, original: string, i: nat,
                       g: Guest)
    requires IsRename(form, servers, exclude, original) && i < |servers| && g in servers[i].guests && g.name == original
    requires SameButOrder(AfterEdit(form, servers, original)[i], SubServer(servers[i], original, form.name))
    ensures CheckLink(form, servers, Some(original)) == LinkTo(servers[i].name, g.vmId) && form.box == g.onDemand
  {
    NoneHasTheNewName(form, servers, exclude, original);
    var h := g.(name := form.name);
    SubGuestsAre(servers[i].guests, original, form.name, h);
    GuestsAfterRename(form, servers, exclude, original, i, h);
    assert servers[i] in servers;
    assert h in AfterEdit(form, servers, original)[i].guests;
  }

  lemma LinkIsTheGuest(form: Form, servers: seq<Server>, exclude: map<Job, seq<string>>, original: string, i: nat)
    requires IsRename(form, servers, exclude, original) && i < |servers|
    requires CheckLink(form, servers, Some(original)).LinkTo?
    requires servers[i].name == CheckLink(form, servers, Some(original)).hypervisor
    requires SameButOrder(AfterEdit(form, servers, original)[i], SubServer(servers[i], original, form.name))
    ensures IsGuest(servers, original)
  {
    NoneHasTheNewName(form, servers, exclude, original);
    var link := CheckLink(form, servers, Some(original));
    var h := Guest(link.vmId, form.name, form.box);
    GuestsAfterRename(form, servers, exclude, original, i, h);
    SubGuestsAre(servers[i].guests, original, form.name, h);
    assert servers[i] in servers && Lists(servers[i], original);
  }

  // -- what the fleet means --------------------------------------------------

  lemma SameLinks(a: seq<Server>, b: seq<Server>, l: Link)
    requires SameFleet(a, b) && l in Links(a)
    ensures l in Links(b)
  {
    LinksByMembership(a, l);
    var s :| s in a && l in LinksOf(s);
    var i :| 0 <= i < |a| && a[i] == s;
    var j :| 0 <= j < |s.guests| && LinksOf(s)[j] == l;
    assert s.guests[j] in b[i].guests;
    var k :| 0 <= k < |b[i].guests| && b[i].guests[k] == s.guests[j];
    assert LinksOf(b[i])[k] == l && b[i] in b;
    LinksByMembership(b, l);
  }

  lemma SameSeeds(a: seq<Server>, b: seq<Server>, n: string)
    requires SameFleet(a, b)
    ensures HasMac(a, n) ==> HasMac(b, n)
    ensures IsManual(a, n) ==> IsManual(b, n)
  {
    forall s | s in a
      ensures exists t :: t in b && s == t.(guests := s.guests)
    {
      var i :| 0 <= i < |a| && a[i] == s;
      assert b[i] in b && SameButOrder(a[i], b[i]);
    }
  }

  lemma LinkOwner(servers: seq<Server>, l: Link) returns (p: nat, g: Guest)
    requires l in Links(servers)
    ensures p < |servers| && servers[p].name == l.host && g in servers[p].guests && g.name == l.guest
  {
    LinksByMembership(servers, l);
    var s :| s in servers && l in LinksOf(s);
    var i :| 0 <= i < |s.guests| && LinksOf(s)[i] == l;
    p :| 0 <= p < |servers| && servers[p] == s;
    g := s.guests[i];
  }

  lemma OneOwnerOneHost(servers: seq<Server>)
    requires OneOwner(servers)
    ensures OneHost(Links(servers))
  {
    forall l, m | l in Links(servers) && m in Links(servers) && l.guest == m.guest
      ensures l.host == m.host
    {
      var p, g := LinkOwner(servers, l);
      var q, h := LinkOwner(servers, m);
    }
  }

  lemma SameFleetSameReasons(a: seq<Server>, b: seq<Server>)
    requires SameFleet(a, b) && OneOwner(a)
    ensures OnDemandOf(a) == OnDemandOf(b)
  {
    assert SameFleet(b, a);
    forall l
      ensures l in Links(a) <==> l in Links(b)
    {
      if l in Links(a) { SameLinks(a, b, l); }
      if l in Links(b) { SameLinks(b, a, l); }
    }
    forall n
      ensures (HasMac(a, n) <==> HasMac(b, n)) && (IsManual(a, n) <==> IsManual(b, n))
    {
      SameSeeds(a, b, n);
      SameSeeds(b, a, n);
    }
    OneOwnerOneHost(a);
    SameReasons(a, b);
  }

  /** A server renamed on its page, its link untouched, is expected off for the reason it was, and so
      is every other: in the fleet as it is saved. */
  lemma RenameKeepsReasons(form: Form, servers: seq<Server>, exclude: map<Job, seq<string>>, original: string)
    requires IsRename(form, servers, exclude, original) && LinkIsStored(form, servers, original)
    ensures Renamed(OnDemandOf(servers), OnDemandOf(AfterEdit(form, servers, original)), original, form.name)
  {
    NoneHasTheNewName(form, servers, exclude, original);
    OnDemandRenamed(servers, original, form.name);
    RenameIsRelinkIff(form, servers, exclude, original);
    EditKeepsOwners(form, servers, exclude, original);
    SameFleetSameReasons(AfterEdit(form, servers, original), SubServers(servers, original, form.name));
  }

  predicate HasAddress(servers: seq<Server>, name: string) {
    Find(servers, name).Some? && Find(servers, name).value.wolMac.Some?
  }

  /** Every machine can be powered on after the rename if it could before, and only then. */
  ghost predicate WakesStay(servers: seq<Server>, after: seq<Server>, from: string, to: string) {
    forall n | n != to :: CanWake(n, servers) <==> CanWake(Sub(n, from, to), after)
  }

  lemma {:induction false} AddressAfterRename(a: seq<Server>, b: seq<Server>, n: string)
    requires |a| == |b| && forall i | 0 <= i < |a| :: a[i].name == b[i].name && a[i].wolMac == b[i].wolMac
    ensures HasAddress(a, n) <==> HasAddress(b, n)
  {
    if a != [] {
      AddressAfterRename(a[1..], b[1..], n);
    }
  }

  lemma ManagedIsGuest(servers: seq<Server>, n: string)
    ensures n in ManagedNames(servers) <==> IsGuest(servers, n)
  {
    if i :| 0 <= i < |servers| && Lists(servers[i], n) {
      var g :| g in servers[i].guests && g.name == n;
      var j :| 0 <= j < |servers[i].guests| && servers[i].guests[j] == g;
      assert servers[i].guests[j].name == n;
    }
    if n in ManagedNames(servers) {
      var i, j :| 0 <= i < |servers| && 0 <= j < |servers[i].guests| && servers[i].guests[j].name == n;
      assert servers[i].guests[j] in servers[i].guests && Lists(servers[i], n);
    }
  }

  /** Which guests an entry lists after the rename: the others it listed, and the renamed one by the link. */
  lemma ListsAfterRename(form: Form, servers: seq<Server>, exclude: map<Job, seq<string>>, original: string, i: nat,
                         n: string)
    requires IsRename(form, servers, exclude, original) && i < |servers|
    ensures var link := CheckLink(form, servers, Some(original));
            Lists(AfterEdit(form, servers, original)[i], n) <==>
              if n == form.name then link.LinkTo? && servers[i].name == link.hypervisor
              else n != original && Lists(servers[i], n)
  {
    var s, e, link := servers[i], AfterEdit(form, servers, original)[i], CheckLink(form, servers, Some(original));
    NoneHasTheNewName(form, servers, exclude, original);
    assert s in servers;
    if Lists(e, n) {
      var g :| g in e.guests && g.name == n;
      GuestsAfterRename(form, servers, exclude, original, i, g);
    }
    if n == form.name && link.LinkTo? && s.name == link.hypervisor {
      GuestsAfterRename(form, servers, exclude, original, i, Guest(link.vmId, form.name, form.box));
    } else if n != form.name && n != original && Lists(s, n) {
      var g :| g in s.guests && g.name == n;
      GuestsAfterRename(form, servers, exclude, original, i, g);
    }
  }

  lemma OthersStayManaged(form: Form, servers: seq<Server>, exclude: map<Job, seq<string>>, original: string, n: string)
    requires IsRename(form, servers, exclude, original) && n != original && n != form.name
    ensures IsGuest(servers, n) <==> IsGuest(AfterEdit(form, servers, original), n)
  {
    forall i | 0 <= i < |servers|
      ensures Lists(servers[i], n) <==> Lists(AfterEdit(form, servers, original)[i], n)
    {
      ListsAfterRename(form, servers, exclude, original, i, n);
    }
  }

  lemma LinkMakesAGuest(form: Form, servers: seq<Server>, exclude: map<Job, seq<string>>, original: string)
    requires IsRename(form, servers, exclude, original)
    ensures IsGuest(AfterEdit(form, servers, original), form.name) <==> CheckLink(form, servers, Some(original)).LinkTo?
  {
    var link := CheckLink(form, servers, Some(original));
    forall i | 0 <= i < |servers|
      ensures Lists(AfterEdit(form, servers, original)[i], form.name) <==>
              link.LinkTo? && servers[i].name == link.hypervisor
    {
      ListsAfterRename(form, servers, exclude, original, i, form.name);
    }
    if link.LinkTo? {
      LinkIsSound(form, servers, Some(original));
      var i :| 0 <= i < |servers| && Names(servers)[i] == link.hypervisor;
      assert Lists(AfterEdit(form, servers, original)[i], form.name);
    }
  }

  lemma WakeAfterRename(form: Form, servers: seq<Server>, exclude: map<Job, seq<string>>, original: string, n: string)
    requires IsRename(form, servers, exclude, original) && n != form.name
    ensures var after := AfterEdit(form, servers, original);
            CanWake(Sub(n, original, form.name), after) <==>
            || HasAddress(servers, n)
            || (if n == original then CheckLink(form, servers, Some(original)).LinkTo? else IsGuest(servers, n))
  {
    var after, renamed := AfterEdit(form, servers, original), SubServers(servers, original, form.name);
    NoneHasTheNewName(form, servers, exclude, original);
    forall i | 0 <= i < |servers|
      ensures after[i].name == renamed[i].name && after[i].wolMac == renamed[i].wolMac
    {
      FieldsAfterRename(form, servers, exclude, original, i);
    }
    AddressAfterRename(after, renamed, Sub(n, original, form.name));
    FindRenamed(servers, n, original, form.name);
    ManagedIsGuest(after, Sub(n, original, form.name));
    if n == original {
      LinkMakesAGuest(form, servers, exclude, original);
    } else {
      OthersStayManaged(form, servers, exclude, original, n);
    }
  }

  lemma WakeBeforeRename(servers: seq<Server>, n: string)
    ensures CanWake(n, servers) <==> HasAddress(servers, n) || IsGuest(servers, n)
  {
    ManagedIsGuest(servers, n);
  }

  lemma OthersWakeAlike(form: Form, servers: seq<Server>, exclude: map<Job, seq<string>>, original: string, n: string)
    requires IsRename(form, servers, exclude, original) && n != original && n != form.name
    ensures CanWake(n, servers) <==> CanWake(Sub(n, original, form.name), AfterEdit(form, servers, original))
  {
    WakeBeforeRename(servers, n);
    WakeAfterRename(form, servers, exclude, original, n);
  }

  /** A rename keeps what can be powered on exactly when the server has a wake address, or the form
      names a hypervisor for it just when it had one. */
  lemma RenameKeepsWakesIff(form: Form, servers: seq<Server>, exclude: map<Job, seq<string>>, original: string)
    requires IsRename(form, servers, exclude, original)
    ensures WakesStay(servers, AfterEdit(form, servers, original), original, form.name)
       <==> HasAddress(servers, original) ||
            (IsGuest(servers, original) <==> CheckLink(form, servers, Some(original)).LinkTo?)
  {
    WakeBeforeRename(servers, original);
    WakeAfterRename(form, servers, exclude, original, original);
    forall n | n != form.name && n != original
      ensures CanWake(n, servers) <==> CanWake(Sub(n, original, form.name), AfterEdit(form, servers, original))
    {
      OthersWakeAlike(form, servers, exclude, original, n);
    }
  }

  lemma StoredIsLinked(form: Form, servers: seq<Server>, original: string)
    requires LinkIsStored(form, servers, original)
    ensures IsGuest(servers, original) <==> CheckLink(form, servers, Some(original)).LinkTo?
  {
    if i :| 0 <= i < |servers| && Lists(servers[i], original) {
      var g :| g in servers[i].guests && g.name == original;
      assert servers[i] in servers;
    }
  }

  /** With the link as stored, all of it stays. */
  lemma RenameKeepsMeaning(form: Form, servers: seq<Server>, exclude: map<Job, seq<string>>, original: string)
    requires IsRename(form, servers, exclude, original) && LinkIsStored(form, servers, original)
    ensures Renamed(OnDemandOf(servers), OnDemandOf(AfterEdit(form, servers, original)), original, form.name)
    ensures WakesStay(servers, AfterEdit(form, servers, original), original, form.name)
  {
    RenameKeepsReasons(form, servers, exclude, original);
    StoredIsLinked(form, servers, original);
    RenameKeepsWakesIff(form, servers, exclude, original);
  }

  const HOST := Server("h", Address("10.0.0.1", 22), Proxmox, true, None, false, None, [Guest(100, "g", false)], None,
    None, 0, map[])
  const GUEST := Server("g", Address("10.0.0.2", 22), Linux, true, None, false, None, [], None, None, 0, map[])
  const BLANK_LINK := Form("k", Address("10.0.0.2", 22), Linux, true, None, None, false, "", Blank)

  lemma TwoServersWellFormed()
    ensures WellFormed([HOST, GUEST], map[])
  {
    var servers := [HOST, GUEST];
    assert Names(servers) == ["h", "g"];
    forall i | 0 <= i < |servers|
      ensures GoodServer(servers, servers[i])
    {
      assert Names(servers)[1] == "g";
    }
  }

  /** It fails for a guest renamed with the hypervisor left blank: nothing can start it any more. */
  lemma RenamedGuestIsStranded()
    ensures IsRename(BLANK_LINK, [HOST, GUEST], map[], "g")
    ensures CanWake("g", [HOST, GUEST]) && !CanWake("k", AfterEdit(BLANK_LINK, [HOST, GUEST], "g"))
  {
    var servers := [HOST, GUEST];
    TwoServersWellFormed();
    assert Names(servers) == ["h", "g"] && Names(servers)[1] == "g";
    assert IsRename(BLANK_LINK, servers, map[], "g");
    assert HOST.guests[0].name == "g" && Lists(servers[0], "g");
    ManagedIsGuest(servers, "g");
    WakeAfterRename(BLANK_LINK, servers, map[], "g", "g");
  }
}
