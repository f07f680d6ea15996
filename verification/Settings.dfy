/** Editing the fleet on the settings pages: adding, replacing, renaming and deleting servers,
    leaving them out of jobs, and what every accepted edit keeps. */
module Settings {
  import opened Fleet
  import opened OnDemand
  import opened Rename
  import opened Text

  /** The text typed as a VM id. */
  datatype IdText = Blank | NotANumber | Number(n: int)

  /** What the server form submits, after the checks on single fields. `box` is the one "off on
      purpose" box, for standalone machines and guests alike. */
  datatype Form = Form(
    name: string, address: Address, platform: Platform, ssh: bool, wolMac: Option<string>,
    command: Option<string>, box: bool, hypervisor: string, vmId: IdText)

  /** `validate.server`: the entry, with only the fields the form owns. */
  function Entry(form: Form): Server {
    Server(form.name, form.address, form.platform, form.ssh, form.wolMac,
           form.box && form.wolMac.None? && form.hypervisor == "",
           form.command, [], None, None, 0, map[])
  }

  predicate NameTaken(servers: seq<Server>, name: string, original: Option<string>) {
    Some(name) != original && name in Names(servers)
  }

  datatype LinkCheck = BadLink | NoLink | LinkTo(hypervisor: string, vmId: int)

  /** `validate.guest_link` */
  function CheckLink(form: Form, servers: seq<Server>, original: Option<string>): LinkCheck {
    if form.hypervisor == "" then (if form.vmId.Blank? then NoLink else BadLink)
    else
      var host := Find(servers, form.hypervisor);
      if host.None? || host.value.platform != Proxmox then BadLink
      else if form.hypervisor == form.name || Some(form.hypervisor) == original then BadLink
      else if !form.vmId.Number? || form.vmId.n < 1 then BadLink
      else if exists s, g :: s in servers && s.name == form.hypervisor && g in s.guests && g.vmId == form.vmId.n &&
                             g.name != form.name && Some(g.name) != original
      then BadLink
      else LinkTo(form.hypervisor, form.vmId.n)
  }

  // -- what an edit makes of one server --------------------------------------

  function Without(guests: seq<Guest>, name: string): (r: seq<Guest>)
    ensures forall g :: g in r <==> g in guests && g.name != name
  {
    if guests == [] then []
    else
      assert guests == [guests[0]] + guests[1..];
      (if guests[0].name == name then [] else [guests[0]]) + Without(guests[1..], name)
  }

  /** `_carry_hand_written`: the parts of the previous entry the form does not own. */
  function Carry(entry: Server, previous: Server): Server {
    entry.(guests := previous.guests, wolRelay := previous.wolRelay, window := previous.window,
           everyDays := previous.everyDays, handWritten := previous.handWritten)
  }

  /** `_rename_references`, for one server. */
  function SubRefs(s: Server, from: string, to: string): Server {
    s.(guests := SubGuests(s.guests, from, to),
       wolRelay := if s.wolRelay == Some(from) then Some(to) else s.wolRelay)
  }

  /** `_relink_guest`, for one server. */
  function Relinked(s: Server, name: string, link: LinkCheck, onDemand: bool): Server {
    s.(guests := Without(s.guests, name) +
                 (if link.LinkTo? && s.name == link.hypervisor then [Guest(link.vmId, name, onDemand)] else []))
  }

  /** What saving the form for `original` makes of `s`. */
  function Edited(s: Server, original: string, entry: Server, link: LinkCheck, onDemand: bool): Server {
    var replaced := if s.name == original then Carry(entry, s) else s;
    Relinked(SubRefs(replaced, original, entry.name), entry.name, link, onDemand)
  }

  function EditedAll(servers: seq<Server>, original: string, entry: Server, link: LinkCheck,
                     onDemand: bool): (r: seq<Server>)
    ensures |r| == |servers|
    ensures forall i | 0 <= i < |servers| :: r[i] == Edited(servers[i], original, entry, link, onDemand)
  {
    seq(|servers|, i requires 0 <= i < |servers| => Edited(servers[i], original, entry, link, onDemand))
  }

  function RelinkedAll(servers: seq<Server>, name: string, link: LinkCheck, onDemand: bool): (r: seq<Server>)
    ensures |r| == |servers|
    ensures forall i | 0 <= i < |servers| :: r[i] == Relinked(servers[i], name, link, onDemand)
  {
    seq(|servers|, i requires 0 <= i < |servers| => Relinked(servers[i], name, link, onDemand))
  }

  /** `[entry if s["name"] == original else s for s in servers]`, the hand-written parts carried. */
  function Replaced(servers: seq<Server>, original: string, entry: Server): (r: seq<Server>)
    ensures |r| == |servers|
    ensures forall i | 0 <= i < |servers| ::
            r[i] == if servers[i].name == original then Carry(entry, servers[i]) else servers[i]
  {
    seq(|servers|, i requires 0 <= i < |servers| =>
      if servers[i].name == original then Carry(entry, servers[i]) else servers[i])
  }

  function SubRefsAll(servers: seq<Server>, from: string, to: string): (r: seq<Server>)
    ensures |r| == |servers|
    ensures forall i | 0 <= i < |servers| :: r[i] == SubRefs(servers[i], from, to)
  {
    seq(|servers|, i requires 0 <= i < |servers| => SubRefs(servers[i], from, to))
  }

  /** `delete_server`'s list: the others, without the guest. */
  function Deleted(servers: seq<Server>, name: string): seq<Server> {
    if servers == [] then []
    else (if servers[0].name == name then [] else [servers[0].(guests := Without(servers[0].guests, name))]) +
         Deleted(servers[1..], name)
  }

  /** `names[names.index(old)] = new` */
  function ReplaceFirst(names: seq<string>, from: string, to: string): (r: seq<string>)
    ensures |r| == |names|
  {
    if names == [] then []
    else if names[0] == from then [to] + names[1..]
    else [names[0]] + ReplaceFirst(names[1..], from, to)
  }

  /** `names.remove(name)`, when it is there. */
  function RemoveFirst(names: seq<string>, name: string): seq<string> {
    if names == [] then []
    else if names[0] == name then names[1..]
    else [names[0]] + RemoveFirst(names[1..], name)
  }

  // -- what every accepted edit keeps ----------------------------------------

  ghost predicate NoDup(names: seq<string>) {
    forall i, j | 0 <= i < j < |names| :: names[i] != names[j]
  }

  /** Guests of one hypervisor: each machine once, each VM id once. */
  ghost predicate GoodGuests(guests: seq<Guest>) {
    forall i, j | 0 <= i < j < |guests| :: guests[i].name != guests[j].name && guests[i].vmId != guests[j].vmId
  }

  ghost predicate GoodServer(servers: seq<Server>, s: Server) {
    GoodGuests(s.guests) && forall g | g in s.guests :: g.name != s.name && g.name in Names(servers)
  }

  /** Unique names; each guest under at most one hypervisor, once, and configured; no server
      managing itself; VM ids unique on each hypervisor; `job_exclude` names configured servers,
      each once. */
  ghost predicate WellFormed(servers: seq<Server>, exclude: map<Job, seq<string>>) {
    && UniqueNames(servers)
    && (forall i | 0 <= i < |servers| :: GoodServer(servers, servers[i]))
    && OneOwner(servers)
    && (forall j | j in exclude :: NoDup(exclude[j]) && forall n | n in exclude[j] :: n in Names(servers))
  }

  lemma WellFormedIsOrderly(servers: seq<Server>, exclude: map<Job, seq<string>>)
    requires WellFormed(servers, exclude)
    ensures Orderly(servers)
  {
    forall s | s in servers
      ensures GuestsOnce(s.guests)
    {
      var i :| 0 <= i < |servers| && servers[i] == s;
      assert GoodServer(servers, servers[i]);
    }
  }

  lemma {:induction false} WithoutIsGood(guests: seq<Guest>, name: string)
    requires GoodGuests(guests)
    ensures GoodGuests(Without(guests, name))
  {
    if guests != [] {
      WithoutIsGood(guests[1..], name);
      assert forall g | g in Without(guests[1..], name) :: g in guests[1..];
    }
  }

  lemma SubGuestsIsGood(guests: seq<Guest>, from: string, to: string)
    requires GoodGuests(guests) && forall g | g in guests :: g.name != to
    ensures GoodGuests(SubGuests(guests, from, to))
  {
    var r := SubGuests(guests, from, to);
    forall i, j | 0 <= i < j < |r|
      ensures r[i].name != r[j].name && r[i].vmId != r[j].vmId
    {
      assert guests[i] in guests && guests[j] in guests;
    }
  }

  /** The form passed its checks: the name is free, and the link names another server, a configured
      Proxmox host, and a VM id that is not another guest's there. */
  predicate Passes(form: Form, servers: seq<Server>, original: Option<string>) {
    !NameTaken(servers, form.name, original) && !CheckLink(form, servers, original).BadLink?
  }

  lemma LinkIsSound(form: Form, servers: seq<Server>, original: Option<string>)
    requires Passes(form, servers, original) && CheckLink(form, servers, original).LinkTo?
    ensures CheckLink(form, servers, original) == LinkTo(form.hypervisor, form.vmId.n)
    ensures UniqueNames(servers) ==> forall s | s in servers && s.name == form.hypervisor :: s.platform.Proxmox?
    ensures var link := CheckLink(form, servers, original);
            && link.hypervisor in Names(servers) && link.hypervisor != form.name && Some(link.hypervisor) != original
            && link.vmId >= 1
            && forall s, g | s in servers && s.name == link.hypervisor && g in s.guests && g.vmId == link.vmId ::
                 g.name == form.name || Some(g.name) == original
  {
    var host := Find(servers, form.hypervisor).value;
    var i :| 0 <= i < |servers| && servers[i] == host;
    assert Names(servers)[i] == form.hypervisor;
    forall s | UniqueNames(servers) && s in servers && s.name == form.hypervisor
      ensures s.platform.Proxmox?
    {
      FindsTheOne(servers, s);
    }
  }

  lemma SubbedFrom(guests: seq<Guest>, from: string, to: string, g: Guest)
    requires g.name != to
    ensures g in SubGuests(guests, from, to) <==> g in guests && g.name != from
  {
    var subbed := SubGuests(guests, from, to);
    if g in subbed {
      var i :| 0 <= i < |subbed| && subbed[i] == g;
      assert guests[i] in guests;
    }
    if g in guests && g.name != from {
      var i :| 0 <= i < |guests| && guests[i] == g;
      assert subbed[i] in subbed;
    }
  }

  /** The guests a server is left with: its own, without the edited machine under either name,
      and the edited machine if this is its hypervisor. */
  lemma GuestsAfterEdit(s: Server, original: string, entry: Server, link: LinkCheck, onDemand: bool, g: Guest)
    ensures var e := Edited(s, original, entry, link, onDemand);
            g in e.guests <==>
              (g in s.guests && g.name != original && g.name != entry.name) ||
              (link.LinkTo? && e.name == link.hypervisor && g == Guest(link.vmId, entry.name, onDemand))
  {
    if g.name != entry.name {
      SubbedFrom(s.guests, original, entry.name, g);
    }
  }

  ghost predicate EditOk(form: Form, servers: seq<Server>, original: string) {
    original in Names(servers) && Passes(form, servers, Some(original))
  }

  function AfterEdit(form: Form, servers: seq<Server>, original: string): seq<Server> {
    EditedAll(servers, original, Entry(form), CheckLink(form, servers, Some(original)), form.box)
  }

  lemma NamesAfterEdit(form: Form, servers: seq<Server>, original: string)
    ensures Names(AfterEdit(form, servers, original)) ==
            seq(|servers|, i requires 0 <= i < |servers| => Sub(servers[i].name, original, form.name))
  {
  }

  lemma EditKeepsNames(form: Form, servers: seq<Server>, original: string)
    requires EditOk(form, servers, original) && UniqueNames(servers)
    ensures UniqueNames(AfterEdit(form, servers, original))
    ensures form.name in Names(AfterEdit(form, servers, original))
    ensures forall n | n in Names(servers) && n != original :: n in Names(AfterEdit(form, servers, original))
  {
    var after, names := Names(AfterEdit(form, servers, original)), Names(servers);
    NamesAfterEdit(form, servers, original);
    forall i, j | 0 <= i < j < |servers|
      ensures after[i] != after[j]
    {
      assert names[i] in names && names[j] in names;
    }
    var k :| 0 <= k < |names| && names[k] == original;
    assert after[k] == form.name;
    forall n | n in names && n != original
      ensures n in after
    {
      var i :| 0 <= i < |names| && names[i] == n;
      assert after[i] == n;
    }
  }

  lemma LinkedIsGood(guests: seq<Guest>, g: Guest)
    requires GoodGuests(guests)
    requires forall h | h in guests && h.name != g.name :: h.vmId != g.vmId
    ensures GoodGuests(Without(guests, g.name) + [g])
  {
    WithoutIsGood(guests, g.name);
    var kept := Without(guests, g.name);
    forall j | 0 <= j < |kept|
      ensures kept[j].name != g.name && kept[j].vmId != g.vmId
    {
      assert kept[j] in kept;
    }
  }

  lemma SubbedIsGood(servers: seq<Server>, s: Server, from: string, to: string)
    requires GoodGuests(s.guests) && (from == to || forall g | g in s.guests :: g.name != to)
    ensures GoodGuests(SubGuests(s.guests, from, to))
  {
    if from == to {
      assert SubGuests(s.guests, from, to) == s.guests;
    } else {
      SubGuestsIsGood(s.guests, from, to);
    }
  }

  lemma NoGuestHasAFreeName(form: Form, servers: seq<Server>, original: string, s: Server)
    requires !NameTaken(servers, form.name, Some(original)) && GoodServer(servers, s)
    ensures form.name == original || forall g | g in s.guests :: g.name != form.name
  {
  }

  lemma LinkedIdIsFree(form: Form, servers: seq<Server>, original: string, s: Server, link: LinkCheck)
    requires Passes(form, servers, Some(original)) && link == CheckLink(form, servers, Some(original))
    requires link.LinkTo? && s in servers && s.name == link.hypervisor
    ensures forall h | h in SubGuests(s.guests, original, form.name) && h.name != form.name :: h.vmId != link.vmId
  {
    LinkIsSound(form, servers, Some(original));
    var subbed := SubGuests(s.guests, original, form.name);
    forall h | h in subbed && h.name != form.name
      ensures h.vmId != link.vmId
    {
      var k :| 0 <= k < |subbed| && subbed[k] == h;
      assert s.guests[k] in s.guests;
    }
  }

  lemma EditKeepsGuests(form: Form, servers: seq<Server>, original: string, s: Server, link: LinkCheck)
    requires EditOk(form, servers, original) && link == CheckLink(form, servers, Some(original))
    requires s in servers && GoodServer(servers, s)
    ensures GoodGuests(Edited(s, original, Entry(form), link, form.box).guests)
  {
    var subbed := SubGuests(s.guests, original, form.name);
    NoGuestHasAFreeName(form, servers, original, s);
    SubbedIsGood(servers, s, original, form.name);
    WithoutIsGood(subbed, form.name);
    if link.LinkTo? {
      LinkIsSound(form, servers, Some(original));
      if s.name == link.hypervisor {
        LinkedIdIsFree(form, servers, original, s, link);
        LinkedIsGood(subbed, Guest(link.vmId, form.name, form.box));
      }
    }
    assert Without(subbed, form.name) + [] == Without(subbed, form.name);
  }

  lemma EditKeepsServer(form: Form, servers: seq<Server>, exclude: map<Job, seq<string>>, original: string, i: nat)
    requires EditOk(form, servers, original) && WellFormed(servers, exclude) && i < |servers|
    ensures GoodServer(AfterEdit(form, servers, original), AfterEdit(form, servers, original)[i])
  {
    var after := AfterEdit(form, servers, original);
    var link := CheckLink(form, servers, Some(original));
    EditKeepsNames(form, servers, original);
    assert GoodServer(servers, servers[i]);
    EditKeepsGuests(form, servers, original, servers[i], link);
    if link.LinkTo? {
      LinkIsSound(form, servers, Some(original));
    }
    forall g | g in after[i].guests
      ensures g.name != after[i].name && g.name in Names(after)
    {
      GuestsAfterEdit(servers[i], original, Entry(form), link, form.box, g);
    }
  }

  lemma GuestCameFrom(form: Form, servers: seq<Server>, original: string, i: nat, g: Guest)
    requires i < |servers| && g in AfterEdit(form, servers, original)[i].guests
    ensures (g in servers[i].guests && g.name != form.name) ||
            (g.name == form.name && CheckLink(form, servers, Some(original)).LinkTo? &&
             AfterEdit(form, servers, original)[i].name == CheckLink(form, servers, Some(original)).hypervisor)
  {
    GuestsAfterEdit(servers[i], original, Entry(form), CheckLink(form, servers, Some(original)), form.box, g);
  }

  lemma EditKeepsOwners(form: Form, servers: seq<Server>, exclude: map<Job, seq<string>>, original: string)
    requires EditOk(form, servers, original) && WellFormed(servers, exclude)
    ensures OneOwner(AfterEdit(form, servers, original))
  {
    var after := AfterEdit(form, servers, original);
    EditKeepsNames(form, servers, original);
    forall i, k, g, h | 0 <= i < |after| && 0 <= k < |after| && i != k && g in after[i].guests && h in after[k].guests
      ensures g.name != h.name
    {
      GuestCameFrom(form, servers, original, i, g);
      GuestCameFrom(form, servers, original, k, h);
    }
  }

  lemma {:induction false} ReplacedNames(names: seq<string>, from: string, to: string)
    requires NoDup(names) && to !in names
    ensures NoDup(ReplaceFirst(names, from, to))
    ensures forall n :: n in ReplaceFirst(names, from, to) <==> (n in names && n != from) || (n == to && from in names)
  {
    if names != [] {
      assert names == [names[0]] + names[1..];
      ReplacedNames(names[1..], from, to);
      var rest := ReplaceFirst(names[1..], from, to);
      if names[0] != from {
        assert names[0] !in names[1..];
        assert names[0] !in rest;
        assert ReplaceFirst(names, from, to) == [names[0]] + rest;
      } else {
        assert ReplaceFirst(names, from, to) == [to] + names[1..];
      }
    }
  }

  lemma {:induction false} RemovedNames(names: seq<string>, name: string)
    requires NoDup(names)
    ensures NoDup(RemoveFirst(names, name))
    ensures forall n :: n in RemoveFirst(names, name) <==> n in names && n != name
  {
    if names != [] {
      assert names == [names[0]] + names[1..];
      RemovedNames(names[1..], name);
      if names[0] != name {
        assert names[0] !in names[1..];
        assert RemoveFirst(names, name) == [names[0]] + RemoveFirst(names[1..], name);
      }
    }
  }

  /** `membership.rename` */
  function ExcludeRenamed(exclude: map<Job, seq<string>>, from: string, to: string): map<Job, seq<string>> {
    map j | j in exclude :: ReplaceFirst(exclude[j], from, to)
  }

  /** `membership.forget` */
  function ExcludeForgotten(exclude: map<Job, seq<string>>, name: string): map<Job, seq<string>> {
    map j | j in exclude :: RemoveFirst(exclude[j], name)
  }

  function ExcludeAfterEdit(form: Form, exclude: map<Job, seq<string>>, original: string): map<Job, seq<string>> {
    if form.name == original then exclude else ExcludeRenamed(exclude, original, form.name)
  }

  /** Replacing a server, renaming it or not, keeps the fleet well formed. */
  lemma EditKeepsWellFormed(form: Form, servers: seq<Server>, exclude: map<Job, seq<string>>, original: string)
    requires EditOk(form, servers, original) && WellFormed(servers, exclude)
    ensures WellFormed(AfterEdit(form, servers, original), ExcludeAfterEdit(form, exclude, original))
  {
    EditKeepsNames(form, servers, original);
    EditKeepsOwners(form, servers, exclude, original);
    forall i | 0 <= i < |servers|
      ensures GoodServer(AfterEdit(form, servers, original), AfterEdit(form, servers, original)[i])
    {
      EditKeepsServer(form, servers, exclude, original, i);
    }
    forall j | j in exclude
      ensures var names := ExcludeAfterEdit(form, exclude, original)[j];
              NoDup(names) && forall n | n in names :: n in Names(AfterEdit(form, servers, original))
    {
      if form.name != original {
        ReplacedNames(exclude[j], original, form.name);
      } else {
        assert forall n | n in exclude[j] :: n in Names(servers);
      }
    }
  }

  /** And an edit takes nothing away that the form does not own: the hand-written keys stay, and
      every other server keeps all it had but references to the edited one. */
  lemma EditCarriesHandWritten(form: Form, servers: seq<Server>, original: string, i: nat)
    requires EditOk(form, servers, original) && UniqueNames(servers) && i < |servers|
    ensures var s, e := servers[i], AfterEdit(form, servers, original)[i];
            && e.handWritten == s.handWritten && e.window == s.window && e.everyDays == s.everyDays
            && e.wolRelay == (if s.wolRelay == Some(original) then Some(form.name) else s.wolRelay)
            && (s.name != original ==> e == s.(guests := e.guests, wolRelay := e.wolRelay))
            && (forall g | g in s.guests && g.name != original && g.name != form.name :: g in e.guests)
            && (forall g | g in e.guests && g.name != form.name :: g in s.guests)
  {
    forall g
      ensures g in AfterEdit(form, servers, original)[i].guests <==>
              (g in servers[i].guests && g.name != original && g.name != form.name) ||
              (var link := CheckLink(form, servers, Some(original));
               link.LinkTo? && AfterEdit(form, servers, original)[i].name == link.hypervisor &&
               g == Guest(link.vmId, form.name, form.box))
    {
      GuestsAfterEdit(servers[i], original, Entry(form), CheckLink(form, servers, Some(original)), form.box, g);
    }
  }

  /** A form that only renames: every other field as it stands. */
  predicate OnlyRenames(form: Form, s: Server) {
    Carry(Entry(form), s) == s.(name := form.name)
  }

  /** Renaming rewrites the fleet exactly as substituting the name does: entry, guest lists, relays. */
  lemma RenameIsSubstitution(form: Form, servers: seq<Server>, original: string)
    requires forall s | s in servers && s.name == original :: OnlyRenames(form, s)
    ensures SubRefsAll(Replaced(servers, original, Entry(form)), original, form.name) ==
            SubServers(servers, original, form.name)
  {
    forall i | 0 <= i < |servers|
      ensures SubRefs(Replaced(servers, original, Entry(form))[i], original, form.name) ==
              SubServer(servers[i], original, form.name)
    {
      assert servers[i] in servers;
    }
  }

  // -- adding and deleting ---------------------------------------------------

  function AfterAdd(form: Form, servers: seq<Server>): seq<Server> {
    RelinkedAll(servers + [Entry(form)], form.name, CheckLink(form, servers, None), form.box)
  }

  lemma {:induction false} FindInPrefix(servers: seq<Server>, last: Server, name: string)
    ensures Find(servers + [last], name) ==
            if Find(servers, name).Some? then Find(servers, name) else if last.name == name then Some(last) else None
  {
    if servers != [] {
      assert (servers + [last])[1..] == servers[1..] + [last];
      FindInPrefix(servers[1..], last, name);
    }
  }

  lemma SameCheck(form: Form, servers: seq<Server>)
    ensures CheckLink(form, servers + [Entry(form)], Some(form.name)) == CheckLink(form, servers, None)
  {
    FindInPrefix(servers, Entry(form), form.hypervisor);
    assert forall s :: s in servers + [Entry(form)] <==> s in servers || s == Entry(form);
  }

  lemma SelfEditOnlyRelinks(form: Form, s: Server, link: LinkCheck)
    requires s.name != form.name || s == Entry(form)
    ensures Edited(s, form.name, Entry(form), link, form.box) == Relinked(s, form.name, link, form.box)
  {
    assert SubGuests(s.guests, form.name, form.name) == s.guests;
  }

  /** Adding a server is appending it and then saving the form for it. */
  lemma AddIsEdit(form: Form, servers: seq<Server>)
    ensures var all := servers + [Entry(form)];
            && CheckLink(form, all, Some(form.name)) == CheckLink(form, servers, None)
            && (Passes(form, servers, None) ==> AfterAdd(form, servers) == AfterEdit(form, all, form.name))
  {
    var all := servers + [Entry(form)];
    SameCheck(form, servers);
    if Passes(form, servers, None) {
      forall i | 0 <= i < |all|
        ensures AfterAdd(form, servers)[i] == AfterEdit(form, all, form.name)[i]
      {
        assert i < |servers| ==> Names(servers)[i] == servers[i].name;
        SelfEditOnlyRelinks(form, all[i], CheckLink(form, servers, None));
      }
    }
  }

  lemma AppendKeepsWellFormed(form: Form, servers: seq<Server>, exclude: map<Job, seq<string>>)
    requires WellFormed(servers, exclude) && form.name !in Names(servers)
    ensures WellFormed(servers + [Entry(form)], exclude)
  {
    var all := servers + [Entry(form)];
    assert Names(all) == Names(servers) + [form.name];
    forall i | 0 <= i < |all|
      ensures GoodServer(all, all[i])
      ensures i < |servers| ==> all[i].name != form.name
    {
      if i < |servers| {
        assert Names(servers)[i] == servers[i].name && GoodServer(servers, servers[i]);
      }
    }
  }

  /** Adding a server keeps the fleet well formed. */
  lemma AddKeepsWellFormed(form: Form, servers: seq<Server>, exclude: map<Job, seq<string>>)
    requires Passes(form, servers, None) && WellFormed(servers, exclude)
    ensures WellFormed(AfterAdd(form, servers), exclude)
  {
    var all := servers + [Entry(form)];
    AppendKeepsWellFormed(form, servers, exclude);
    AddIsEdit(form, servers);
    assert Names(all)[|servers|] == form.name;
    EditKeepsWellFormed(form, all, exclude, form.name);
  }

  lemma {:induction false} DeletedAre(servers: seq<Server>, name: string, s: Server)
    ensures s in Deleted(servers, name) <==>
              exists t :: t in servers && t.name != name && s == t.(guests := Without(t.guests, name))
  {
    if servers != [] {
      var first, rest := servers[0], servers[1..];
      assert servers == [first] + rest;
      DeletedAre(rest, name, s);
    }
  }

  lemma {:induction false} DeletedNames(servers: seq<Server>, name: string)
    ensures forall n :: n in Names(Deleted(servers, name)) <==> n in Names(servers) && n != name
  {
    if servers != [] {
      var first, rest := servers[0], servers[1..];
      assert Names(servers) == [first.name] + Names(rest);
      DeletedNames(rest, name);
      if first.name == name {
        assert Deleted(servers, name) == Deleted(rest, name);
      } else {
        assert Names(Deleted(servers, name)) == [first.name] + Names(Deleted(rest, name));
      }
    }
  }

  /** `delete_server`: a name nobody bears changes no list but `job_exclude`'s. */
  function AfterDelete(servers: seq<Server>, name: string): seq<Server> {
    if Find(servers, name).None? then servers else Deleted(servers, name)
  }

  lemma DeletedFrom(servers: seq<Server>, name: string, s: Server) returns (t: Server)
    requires s in AfterDelete(servers, name)
    ensures t in servers && t.name == s.name && t.name != name
    ensures Find(servers, name).None? ==> s == t
    ensures forall g | g in s.guests :: g in t.guests && (g.name != name || Find(servers, name).None?)
    ensures Find(servers, name).Some? ==> s.guests == Without(t.guests, name)
  {
    if Find(servers, name).None? {
      t := s;
    } else {
      DeletedAre(servers, name, s);
      t :| t in servers && t.name != name && s == t.(guests := Without(t.guests, name));
    }
  }

  lemma {:induction false} DeletedIsUnique(servers: seq<Server>, name: string)
    requires UniqueNames(servers)
    ensures UniqueNames(Deleted(servers, name))
  {
    if servers != [] {
      var first, rest := servers[0], servers[1..];
      DeletedIsUnique(rest, name);
      DeletedNames(rest, name);
      assert first.name !in Names(rest);
      forall s | s in Deleted(rest, name)
        ensures s.name != first.name
      {
        var i :| 0 <= i < |Deleted(rest, name)| && Deleted(rest, name)[i] == s;
        assert Names(Deleted(rest, name))[i] == s.name;
      }
    }
  }

  lemma AfterDeleteNames(servers: seq<Server>, name: string)
    ensures forall n :: n in Names(AfterDelete(servers, name)) <==> n in Names(servers) && n != name
  {
    DeletedNames(servers, name);
    if name in Names(servers) {
      var i :| 0 <= i < |servers| && Names(servers)[i] == name;
      assert servers[i] in servers;
    }
  }

  lemma DeleteKeepsServer(servers: seq<Server>, name: string, s: Server)
    requires forall i | 0 <= i < |servers| :: GoodServer(servers, servers[i])
    requires s in AfterDelete(servers, name)
    ensures GoodServer(AfterDelete(servers, name), s)
  {
    AfterDeleteNames(servers, name);
    var t := DeletedFrom(servers, name, s);
    assert GoodServer(servers, t);
    WithoutIsGood(t.guests, name);
  }

  lemma TwoOwners(servers: seq<Server>, s: Server, t: Server, g: Guest, h: Guest)
    requires OneOwner(servers) && s in servers && t in servers && s.name != t.name
    requires g in s.guests && h in t.guests
    ensures g.name != h.name
  {
    var i :| 0 <= i < |servers| && servers[i] == s;
    var k :| 0 <= k < |servers| && servers[k] == t;
    assert g in servers[i].guests && h in servers[k].guests && i != k;
  }

  lemma DeleteKeepsOwners(servers: seq<Server>, name: string)
    requires UniqueNames(AfterDelete(servers, name)) && OneOwner(servers)
    ensures OneOwner(AfterDelete(servers, name))
  {
    var after := AfterDelete(servers, name);
    forall i, k, g, h | 0 <= i < |after| && 0 <= k < |after| && i != k && g in after[i].guests && h in after[k].guests
      ensures g.name != h.name
    {
      var s := DeletedFrom(servers, name, after[i]);
      var t := DeletedFrom(servers, name, after[k]);
      TwoOwners(servers, s, t, g, h);
    }
  }

  lemma ForgettingKeepsLists(servers: seq<Server>, exclude: map<Job, seq<string>>, name: string, j: Job)
    requires WellFormed(servers, exclude) && j in exclude
    ensures var names := ExcludeForgotten(exclude, name)[j];
            NoDup(names) && forall n | n in names :: n in Names(AfterDelete(servers, name))
  {
    AfterDeleteNames(servers, name);
    RemovedNames(exclude[j], name);
  }

  /** Deleting a server keeps the fleet well formed: nobody is left managing it or leaving it out. */
  lemma DeleteKeepsWellFormed(servers: seq<Server>, exclude: map<Job, seq<string>>, name: string)
    requires WellFormed(servers, exclude)
    ensures WellFormed(AfterDelete(servers, name), ExcludeForgotten(exclude, name))
    ensures name !in Names(AfterDelete(servers, name))
  {
    var after := AfterDelete(servers, name);
    DeletedIsUnique(servers, name);
    AfterDeleteNames(servers, name);
    DeleteKeepsOwners(servers, name);
    forall i | 0 <= i < |after|
      ensures GoodServer(after, after[i])
    {
      DeleteKeepsServer(servers, name, after[i]);
    }
    forall j | j in exclude
      ensures var names := ExcludeForgotten(exclude, name)[j];
              NoDup(names) && forall n | n in names :: n in Names(after)
    {
      ForgettingKeepsLists(servers, exclude, name, j);
    }
  }

  // -- leaving servers out of a job ------------------------------------------

  ghost predicate Ascending(names: seq<string>) {
    forall i, j | 0 <= i < j < |names| :: Before(names[i], names[j])
  }

  function Insert(names: seq<string>, name: string): seq<string> {
    if names == [] then [name]
    else if names[0] == name then names
    else if Before(name, names[0]) then [name] + names
    else [names[0]] + Insert(names[1..], name)
  }

  /** `sorted(set(names))` */
  function SortedSet(names: seq<string>): seq<string> {
    if names == [] then [] else Insert(SortedSet(names[1..]), names[0])
  }

  lemma {:induction false} InsertAdds(names: seq<string>, name: string)
    ensures forall n :: n in Insert(names, name) <==> n == name || n in names
  {
    if names != [] {
      assert names == [names[0]] + names[1..];
      InsertAdds(names[1..], name);
    }
  }

  lemma PutInFront(first: string, rest: seq<string>)
    requires Ascending(rest) && forall n | n in rest :: Before(first, n)
    ensures Ascending([first] + rest)
  {
  }

  lemma {:induction false} InsertKeepsOrder(names: seq<string>, name: string)
    requires Ascending(names)
    ensures Ascending(Insert(names, name))
  {
    if names != [] {
      var first, rest := names[0], names[1..];
      BeforeIsOrder(name, first, first);
      assert forall n | n in rest :: Before(first, n);
      if first != name && Before(name, first) {
        forall n | n in names
          ensures Before(name, n)
        {
          BeforeIsOrder(name, first, n);
        }
        PutInFront(name, names);
      } else if first != name {
        InsertKeepsOrder(rest, name);
        InsertAdds(rest, name);
        PutInFront(first, Insert(rest, name));
      }
    }
  }

  lemma {:induction false} SortedSetIsSorted(names: seq<string>)
    ensures Ascending(SortedSet(names)) && NoDup(SortedSet(names))
    ensures forall n :: n in SortedSet(names) <==> n in names
  {
    if names != [] {
      SortedSetIsSorted(names[1..]);
      InsertKeepsOrder(SortedSet(names[1..]), names[0]);
      InsertAdds(SortedSet(names[1..]), names[0]);
      assert names == [names[0]] + names[1..];
    }
    var r := SortedSet(names);
    forall i, j | 0 <= i < j < |r|
      ensures r[i] != r[j]
    {
      BeforeIsOrder(r[i], r[j], r[j]);
    }
  }

  /** The names a job leaves out once one is added or taken back. */
  function LeftOut(exclude: map<Job, seq<string>>, job: Job, name: string, leaveOut: bool): seq<string> {
    var names := if job in exclude then exclude[job] else [];
    if leaveOut then SortedSet(names + [name]) else RemoveFirst(SortedSet(names), name)
  }

  /** `membership.set_excluded`: lists left empty are dropped. */
  function AfterSetExcluded(exclude: map<Job, seq<string>>, job: Job, name: string,
                            leaveOut: bool): (r: map<Job, seq<string>>) {
    var lists := exclude[job := LeftOut(exclude, job, name, leaveOut)];
    map j | j in lists && lists[j] != [] :: lists[j]
  }

  lemma LeftOutIsRight(exclude: map<Job, seq<string>>, job: Job, name: string, leaveOut: bool)
    ensures var names := LeftOut(exclude, job, name, leaveOut);
            NoDup(names) && forall n :: n in names <==>
              if n == name then leaveOut else job in exclude && n in exclude[job]
  {
    var names := if job in exclude then exclude[job] else [];
    SortedSetIsSorted(names + [name]);
    SortedSetIsSorted(names);
    if !leaveOut {
      RemovedNames(SortedSet(names), name);
    }
  }

  /** Leaving a configured server out of a job, or taking it back in, keeps the fleet well formed,
      and changes the standing of that server in that job alone. */
  lemma SetExcludedIsRight(servers: seq<Server>, exclude: map<Job, seq<string>>, job: Job, name: string, leaveOut: bool)
    requires WellFormed(servers, exclude) && name in Names(servers)
    ensures var after := AfterSetExcluded(exclude, job, name, leaveOut);
            && WellFormed(servers, after)
            && (forall j, n :: j in after && n in after[j] <==>
                  if j == job && n == name then leaveOut else j in exclude && n in exclude[j])
  {
    LeftOutIsRight(exclude, job, name, leaveOut);
    var after := AfterSetExcluded(exclude, job, name, leaveOut);
    forall j | j in after
      ensures NoDup(after[j]) && forall n | n in after[j] :: n in Names(servers)
    {
      if j != job {
        assert j in exclude && after[j] == exclude[j];
      }
    }
  }

  // -- an edit whose original has gone ---------------------------------------

  lemma {:induction false} WithoutAbsent(guests: seq<Guest>, name: string)
    requires forall g | g in guests :: g.name != name
    ensures Without(guests, name) == guests
  {
    if guests != [] {
      WithoutAbsent(guests[1..], name);
      assert guests[0] in guests;
    }
  }

  lemma {:induction false} ReplaceAbsent(names: seq<string>, from: string, to: string)
    requires from !in names
    ensures ReplaceFirst(names, from, to) == names
  {
    if names != [] {
      ReplaceAbsent(names[1..], from, to);
    }
  }

  /** The entry a link adds to the guests of `s`. */
  function LinkedHere(s: Server, form: Form, link: LinkCheck): seq<Guest> {
    if link.LinkTo? && s.name == link.hypervisor then [Guest(link.vmId, form.name, form.box)] else []
  }

  lemma VanishedServer(form: Form, servers: seq<Server>, original: string, s: Server, link: LinkCheck)
    requires original !in Names(servers) && form.name !in Names(servers)
    requires GoodServer(servers, s) && s.name in Names(servers)
    ensures var e := Edited(s, original, Entry(form), link, form.box);
            && e.name == s.name
            && e.guests == s.guests + LinkedHere(s, form, link)
  {
    assert SubGuests(s.guests, original, form.name) == s.guests;
    WithoutAbsent(s.guests, form.name);
  }

  lemma VanishedServers(form: Form, servers: seq<Server>, original: string, link: LinkCheck)
    requires original !in Names(servers) && form.name !in Names(servers)
    requires forall i | 0 <= i < |servers| :: GoodServer(servers, servers[i])
    ensures var after := EditedAll(servers, original, Entry(form), link, form.box);
            && Names(after) == Names(servers)
            && forall i | 0 <= i < |servers| ::
                 after[i].name == servers[i].name &&
                 after[i].guests == servers[i].guests +
                   LinkedHere(servers[i], form, link)
  {
    var after := EditedAll(servers, original, Entry(form), link, form.box);
    forall i | 0 <= i < |servers|
      ensures after[i].name == servers[i].name
      ensures after[i].guests == servers[i].guests +
                LinkedHere(servers[i], form, link)
    {
      assert Names(servers)[i] == servers[i].name && GoodServer(servers, servers[i]);
      VanishedServer(form, servers, original, servers[i], link);
    }
    assert Names(after) == Names(servers);
  }

  /** A link to the vanished server leaves its hypervisor with a guest nobody has configured. */
  lemma StrandedGuest(form: Form, servers: seq<Server>, original: string, link: LinkCheck)
    requires original !in Names(servers) && form.name !in Names(servers)
    requires forall i | 0 <= i < |servers| :: GoodServer(servers, servers[i])
    requires link.LinkTo? && link.hypervisor in Names(servers)
    ensures var after := EditedAll(servers, original, Entry(form), link, form.box);
            exists i :: 0 <= i < |after| && !GoodServer(after, after[i])
  {
    VanishedServers(form, servers, original, link);
    var after := EditedAll(servers, original, Entry(form), link, form.box);
    var i :| 0 <= i < |servers| && Names(servers)[i] == link.hypervisor;
    var g := Guest(link.vmId, form.name, form.box);
    assert after[i].guests[|servers[i].guests|] == g;
    assert g in after[i].guests && g.name !in Names(after);
    assert !GoodServer(after, after[i]);
  }

  lemma VanishedLists(form: Form, servers: seq<Server>, exclude: map<Job, seq<string>>, original: string)
    requires WellFormed(servers, exclude) && original !in Names(servers)
    ensures ExcludeAfterEdit(form, exclude, original) == exclude
  {
    forall j | j in exclude
      ensures ExcludeAfterEdit(form, exclude, original)[j] == exclude[j]
    {
      ReplaceAbsent(exclude[j], original, form.name);
    }
  }

  /** When the edited server was deleted on another page meanwhile, the save adds no entry: the
      fleet stays well formed exactly when the form names no hypervisor. */
  lemma VanishedEdit(form: Form, servers: seq<Server>, exclude: map<Job, seq<string>>, original: string)
    requires WellFormed(servers, exclude) && original !in Names(servers) && Passes(form, servers, Some(original))
    ensures Names(AfterEdit(form, servers, original)) == Names(servers)
    ensures WellFormed(AfterEdit(form, servers, original), ExcludeAfterEdit(form, exclude, original))
       <==> CheckLink(form, servers, Some(original)).NoLink?
  {
    var link := CheckLink(form, servers, Some(original));
    VanishedServers(form, servers, original, link);
    VanishedLists(form, servers, exclude, original);
    if link.LinkTo? {
      LinkIsSound(form, servers, Some(original));
      StrandedGuest(form, servers, original, link);
    } else {
      SameGuestsWellFormed(servers, AfterEdit(form, servers, original), exclude);
    }
  }

  lemma SameGuestsWellFormed(servers: seq<Server>, after: seq<Server>, exclude: map<Job, seq<string>>)
    requires WellFormed(servers, exclude) && Names(after) == Names(servers)
    requires forall i | 0 <= i < |servers| :: after[i].name == servers[i].name && after[i].guests == servers[i].guests
    ensures WellFormed(after, exclude)
  {
    forall i | 0 <= i < |after|
      ensures GoodServer(after, after[i])
    {
      assert GoodServer(servers, servers[i]);
    }
  }

  // -- any history of edits --------------------------------------------------

  datatype Change =
    | Save(form: Form, original: Option<string>)
    | Delete(name: string)
    | SetExcluded(job: Job, name: string, leaveOut: bool)

  function SubProjects(projects: seq<Project>, from: string, to: string): (r: seq<Project>)
    ensures |r| == |projects|
    ensures forall i | 0 <= i < |projects| :: r[i] == projects[i].(server := Sub(projects[i].server, from, to))
  {
    seq(|projects|, i requires 0 <= i < |projects| => projects[i].(server := Sub(projects[i].server, from, to)))
  }

  /** What a request leaves in the config; a refused one leaves it as it was. */
  function Apply(cfg: Config, c: Change): Config {
    match c
    case Save(form, None) =>
      if Passes(form, cfg.servers, None) then cfg.(servers := AfterAdd(form, cfg.servers)) else cfg
    case Save(form, Some(original)) =>
      if Passes(form, cfg.servers, Some(original)) then
        Config(AfterEdit(form, cfg.servers, original),
               if form.name == original then cfg.projects else SubProjects(cfg.projects, original, form.name),
               ExcludeAfterEdit(form, cfg.exclude, original))
      else cfg
    case Delete(name) =>
      cfg.(servers := AfterDelete(cfg.servers, name), exclude := ExcludeForgotten(cfg.exclude, name))
    case SetExcluded(job, name, leaveOut) =>
      if Find(cfg.servers, name).None? then cfg
      else cfg.(exclude := AfterSetExcluded(cfg.exclude, job, name, leaveOut))
  }

  // -- what a save writes ----------------------------------------------------

  /** The entry holds what the form says. */
  predicate AsTyped(e: Server, form: Form) {
    && e.name == form.name && e.address == form.address && e.platform == form.platform && e.ssh == form.ssh
    && e.wolMac == form.wolMac && e.command == form.command
    && (e.onDemand <==> form.box && form.wolMac.None? && form.hypervisor == "")
  }

  lemma EditedAsTyped(form: Form, servers: seq<Server>, original: string, s: Server)
    requires UniqueNames(servers) && original in Names(servers) && Passes(form, servers, Some(original))
    requires s in AfterEdit(form, servers, original) && s.name == form.name
    ensures AsTyped(s, form)
  {
    var after := AfterEdit(form, servers, original);
    var i :| 0 <= i < |after| && after[i] == s;
    NamesAfterEdit(form, servers, original);
    assert Names(after)[i] == Sub(servers[i].name, original, form.name);
    assert Names(servers)[i] == servers[i].name;
  }

  /** A save that is accepted, of a new server or one that is configured, leaves one under the form's name,
      and it holds what the form says. */
  lemma SavedAsTyped(cfg: Config, form: Form, original: Option<string>)
    requires WellFormed(cfg.servers, cfg.exclude) && Passes(form, cfg.servers, original)
    requires original.Some? ==> original.value in Names(cfg.servers)
    ensures var after := Apply(cfg, Save(form, original)).servers;
            form.name in Names(after) && forall s | s in after && s.name == form.name :: AsTyped(s, form)
  {
    var servers := if original.Some? then cfg.servers else cfg.servers + [Entry(form)];
    var name := if original.Some? then original.value else form.name;
    if original.None? {
      AddIsEdit(form, cfg.servers);
      AppendKeepsWellFormed(form, cfg.servers, cfg.exclude);
      assert Names(servers)[|cfg.servers|] == form.name;
    }
    EditKeepsNames(form, servers, name);
    forall s | s in AfterEdit(form, servers, name) && s.name == form.name
      ensures AsTyped(s, form)
    {
      EditedAsTyped(form, servers, name, s);
    }
  }

  // -- the compose projects of a renamed server ------------------------------

  /** The projects on either server, in order, as projects of the second. */
  function OnEither(projects: seq<Project>, from: string, to: string): seq<Project> {
    if projects == [] then []
    else
      (if projects[0].server == from || projects[0].server == to then [projects[0].(server := to)] else []) +
      OnEither(projects[1..], from, to)
  }

  lemma {:induction false} RenamedAreRegistered(projects: seq<Project>, from: string, to: string, n: string)
    requires from != to
    ensures var after := SubProjects(projects, from, to);
            Registered(after, n) ==
            if n == to then OnEither(projects, from, to) else if n == from then [] else Registered(projects, n)
  {
    if projects != [] {
      assert SubProjects(projects, from, to)[1..] == SubProjects(projects[1..], from, to);
      RenamedAreRegistered(projects[1..], from, to, n);
    }
  }

  predicate Renames(cfg: Config, c: Change) {
    c.Save? && c.original.Some? && c.original.value != c.form.name && Passes(c.form, cfg.servers, c.original)
  }

  /** A rename takes the server's compose projects along: those on either name are on the new one, in
      order, none is left on the old one, and every other server has its own. No other request changes a
      project. */
  lemma ProjectsFollowTheRename(cfg: Config, c: Change, n: string)
    ensures !Renames(cfg, c) ==> Apply(cfg, c).projects == cfg.projects
    ensures Renames(cfg, c) ==>
              var from, to := c.original.value, c.form.name;
              && |Apply(cfg, c).projects| == |cfg.projects|
              && Registered(Apply(cfg, c).projects, n) ==
                 (if n == to then OnEither(cfg.projects, from, to) else if n == from then []
                  else Registered(cfg.projects, n))
  {
    if Renames(cfg, c) {
      RenamedAreRegistered(cfg.projects, c.original.value, c.form.name, n);
    }
  }

  /** Who is left out of a job: a renamed server stays left out under its new name, a deleted one is
      forgotten, and no other request but the one for it changes anybody's standing. */
  lemma StandingFollows(cfg: Config, c: Change, j: Job, n: string)
    requires WellFormed(cfg.servers, cfg.exclude) && !c.SetExcluded?
    ensures n in Excluded(Apply(cfg, c), j) <==>
              if Renames(cfg, c) && n == c.form.name then c.original.value in Excluded(cfg, j)
              else n in Excluded(cfg, j) && !(Renames(cfg, c) && n == c.original.value) && c != Delete(n)
  {
    if j in cfg.exclude {
      if Renames(cfg, c) {
        ReplacedNames(cfg.exclude[j], c.original.value, c.form.name);
      } else if c.Delete? {
        RemovedNames(cfg.exclude[j], c.name);
      }
    }
  }

  /** The server of a compose project is configured. */
  predicate HasServer(cfg: Config, i: nat) {
    i < |cfg.projects| && cfg.projects[i].server in Names(cfg.servers)
  }

  lemma AddKeepsNames(form: Form, servers: seq<Server>)
    ensures forall n | n in Names(servers) :: n in Names(AfterAdd(form, servers))
  {
    var after := Names(AfterAdd(form, servers));
    forall n | n in Names(servers)
      ensures n in after
    {
      var k :| 0 <= k < |servers| && Names(servers)[k] == n;
      assert after[k] == n;
    }
  }

  /** And a project whose server is configured keeps a configured one, and is else as it was, whatever the
      request, unless that server is deleted. */
  lemma ProjectKeepsAServer(cfg: Config, c: Change, i: nat)
    requires UniqueNames(cfg.servers) && HasServer(cfg, i) && c != Delete(cfg.projects[i].server)
    ensures HasServer(Apply(cfg, c), i)
    ensures Apply(cfg, c).projects[i] == cfg.projects[i].(server := Apply(cfg, c).projects[i].server)
  {
    match c
    case Save(form, None) => AddKeepsNames(form, cfg.servers);
    case Save(form, Some(original)) =>
      if Passes(form, cfg.servers, Some(original)) {
        NamesAfterEdit(form, cfg.servers, original);
        var k :| 0 <= k < |cfg.servers| && Names(cfg.servers)[k] == cfg.projects[i].server;
        assert Names(AfterEdit(form, cfg.servers, original))[k] == Sub(cfg.servers[k].name, original, form.name);
      }
    case Delete(name) => AfterDeleteNames(cfg.servers, name);
    case SetExcluded(_, _, _) =>
  }

  /** The one request that does harm: an edit of a server deleted meanwhile, linking it to a
      hypervisor. */
  predicate LinksAVanished(cfg: Config, c: Change) {
    && c.Save? && c.original.Some? && c.original.value !in Names(cfg.servers)
    && Passes(c.form, cfg.servers, c.original)
    && CheckLink(c.form, cfg.servers, c.original).LinkTo?
  }

  /** One request keeps the config well formed, unless it is that one. */
  lemma ChangeKeepsWellFormed(cfg: Config, c: Change)
    requires WellFormed(cfg.servers, cfg.exclude)
    ensures WellFormed(Apply(cfg, c).servers, Apply(cfg, c).exclude) <==> !LinksAVanished(cfg, c)
  {
    match c
    case Save(form, None) =>
      if Passes(form, cfg.servers, None) { AddKeepsWellFormed(form, cfg.servers, cfg.exclude); }
    case Save(form, Some(original)) =>
      if Passes(form, cfg.servers, Some(original)) {
        if original in Names(cfg.servers) {
          EditKeepsWellFormed(form, cfg.servers, cfg.exclude, original);
        } else {
          VanishedEdit(form, cfg.servers, cfg.exclude, original);
        }
      }
    case Delete(name) => DeleteKeepsWellFormed(cfg.servers, cfg.exclude, name);
    case SetExcluded(job, name, leaveOut) =>
      var s := Find(cfg.servers, name);
      if s.Some? {
        var i :| 0 <= i < |cfg.servers| && cfg.servers[i] == s.value;
        assert Names(cfg.servers)[i] == name;
        SetExcludedIsRight(cfg.servers, cfg.exclude, job, name, leaveOut);
      }
  }

  function ApplyAll(cfg: Config, changes: seq<Change>): Config
    decreases |changes|
  {
    if changes == [] then cfg else ApplyAll(Apply(cfg, changes[0]), changes[1..])
  }

  ghost predicate NoneLinksAVanished(cfg: Config, changes: seq<Change>)
    decreases |changes|
  {
    changes != [] ==> !LinksAVanished(cfg, changes[0]) && NoneLinksAVanished(Apply(cfg, changes[0]), changes[1..])
  }

  /** No request of the history deletes the server the project is on by then. */
  predicate KeepsServerOf(cfg: Config, changes: seq<Change>, i: nat)
    decreases |changes|
  {
    changes != [] ==>
      && i < |cfg.projects| && changes[0] != Delete(cfg.projects[i].server)
      && KeepsServerOf(Apply(cfg, changes[0]), changes[1..], i)
  }

  /** Over any history: a project stays with a configured server until that server is deleted. */
  lemma {:induction false} HistoryKeepsProjects(cfg: Config, changes: seq<Change>, i: nat)
    requires WellFormed(cfg.servers, cfg.exclude) && NoneLinksAVanished(cfg, changes)
    requires HasServer(cfg, i) && KeepsServerOf(cfg, changes, i)
    ensures HasServer(ApplyAll(cfg, changes), i)
    ensures ApplyAll(cfg, changes).projects[i] ==
            cfg.projects[i].(server := ApplyAll(cfg, changes).projects[i].server)
    decreases |changes|
  {
    if changes != [] {
      ChangeKeepsWellFormed(cfg, changes[0]);
      ProjectKeepsAServer(cfg, changes[0], i);
      HistoryKeepsProjects(Apply(cfg, changes[0]), changes[1..], i);
    }
  }

  /** Any history of adds, edits, renames, deletes and leavings-out keeps the config well formed. */
  lemma {:induction false} HistoryKeepsWellFormed(cfg: Config, changes: seq<Change>)
    requires WellFormed(cfg.servers, cfg.exclude) && NoneLinksAVanished(cfg, changes)
    ensures WellFormed(ApplyAll(cfg, changes).servers, ApplyAll(cfg, changes).exclude)
    decreases |changes|
  {
    if changes != [] {
      ChangeKeepsWellFormed(cfg, changes[0]);
      HistoryKeepsWellFormed(Apply(cfg, changes[0]), changes[1..]);
    }
  }
}
