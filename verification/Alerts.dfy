/** Watching for machines that are down and should not be: who is reported, when, and what becomes
    of the messages. */
module Alerts {
  import opened Fleet

  const MAX_PENDING := 50

  /** One host as a look found it. Asleep on purpose is not down. */
  datatype Host = Host(name: string, isDown: bool)

  /** A look at the fleet; `minutes` is the grace a host is given. */
  datatype Look = Look(at: real, minutes: int, hosts: seq<Host>)

  datatype Entry = Entry(since: real, told: bool)

  datatype Message = IsDown(name: string, since: real) | IsBack(name: string, since: real, until: real)

  ghost predicate Distinct(hosts: seq<Host>) {
    forall i, j | 0 <= i < j < |hosts| :: hosts[i].name != hosts[j].name
  }

  function At(down: map<string, Entry>, name: string): Option<Entry> {
    if name in down then Some(down[name]) else None
  }

  predicate GraceIsOver(entry: Entry, look: Look) {
    look.at - entry.since >= (look.minutes * 60) as real
  }

  /** What a look makes of a host's entry. */
  function NextEntry(entry: Option<Entry>, isDown: bool, look: Look): Option<Entry> {
    if !isDown then None
    else if entry.None? then Some(Entry(look.at, false))
    else Some(entry.value.(told := entry.value.told || GraceIsOver(entry.value, look)))
  }

  /** And what it has to say about it. */
  function Said(entry: Option<Entry>, h: Host, look: Look): seq<Message> {
    if entry.None? then []
    else if h.isDown then
      if !entry.value.told && GraceIsOver(entry.value, look) then [IsDown(h.name, entry.value.since)] else []
    else if entry.value.told then [IsBack(h.name, entry.value.since, look.at)]
    else []
  }

  function Put(down: map<string, Entry>, name: string, entry: Option<Entry>): map<string, Entry> {
    if entry.Some? then down[name := entry.value] else down - {name}
  }

  function AfterHosts(down: map<string, Entry>, hosts: seq<Host>, look: Look): map<string, Entry> {
    if hosts == [] then down
    else
      var h, before := hosts[|hosts| - 1], AfterHosts(down, hosts[..|hosts| - 1], look);
      Put(before, h.name, NextEntry(At(before, h.name), h.isDown, look))
  }

  function AllSaid(down: map<string, Entry>, hosts: seq<Host>, look: Look): seq<Message> {
    if hosts == [] then []
    else
      var h, front := hosts[|hosts| - 1], hosts[..|hosts| - 1];
      AllSaid(down, front, look) + Said(At(AfterHosts(down, front, look), h.name), h, look)
  }

  lemma LastAlone(down: map<string, Entry>, hosts: seq<Host>, look: Look)
    requires hosts != []
    ensures var before, after := AfterHosts(down, hosts[..|hosts| - 1], look), AfterHosts(down, hosts, look);
            var last := hosts[|hosts| - 1];
            && At(after, last.name) == NextEntry(At(before, last.name), last.isDown, look)
            && forall n | n != last.name :: At(after, n) == At(before, n)
  {
  }

  /** No host's entry depends on another's. */
  lemma {:induction false} EachHostOnItsOwn(down: map<string, Entry>, hosts: seq<Host>, look: Look)
    requires Distinct(hosts)
    ensures var after := AfterHosts(down, hosts, look);
            && (forall h | h in hosts :: At(after, h.name) == NextEntry(At(down, h.name), h.isDown, look))
            && (forall n | (forall h | h in hosts :: h.name != n) :: At(after, n) == At(down, n))
  {
    if hosts != [] {
      var front, last := hosts[..|hosts| - 1], hosts[|hosts| - 1];
      EachHostOnItsOwn(down, front, look);
      assert hosts == front + [last];
      assert forall h | h in front :: h.name != last.name;
      LastAlone(down, hosts, look);
    }
  }

  function HostNames(hosts: seq<Host>): (names: set<string>)
    ensures forall h | h in hosts :: h.name in names
    ensures forall n | n in names :: exists h :: h in hosts && h.name == n
  {
    if hosts == [] then {}
    else
      var front, last := hosts[..|hosts| - 1], hosts[|hosts| - 1];
      assert hosts == front + [last];
      HostNames(front) + {last.name}
  }

  lemma OneHostMore(down: map<string, Entry>, hosts: seq<Host>, look: Look, i: nat)
    requires i < |hosts|
    ensures var front, h := hosts[..i], hosts[i];
            var before := AfterHosts(down, front, look);
            && AfterHosts(down, hosts[..i + 1], look) ==
                 Put(before, h.name, NextEntry(At(before, h.name), h.isDown, look))
            && AllSaid(down, hosts[..i + 1], look) == AllSaid(down, front, look) + Said(At(before, h.name), h, look)
            && HostNames(hosts[..i + 1]) == HostNames(front) + {h.name}
  {
    assert hosts[..i + 1][..i] == hosts[..i];
  }

  lemma Append<T>(p: seq<T>, a: seq<T>, b: seq<T>)
    ensures p + (a + b) == p + a + b
  {
  }

  function Keep(down: map<string, Entry>, names: set<string>): (r: map<string, Entry>)
    ensures forall n :: n in r <==> n in down && n in names
  {
    map n | n in down && n in names :: down[n]
  }

  function Removed(down: map<string, Entry>, names: seq<string>): map<string, Entry> {
    if names == [] then down else Removed(down, names[..|names| - 1]) - {names[|names| - 1]}
  }

  lemma {:induction false} RemovedAre(down: map<string, Entry>, names: seq<string>)
    ensures forall n :: n in Removed(down, names) <==> n in down && n !in names
    ensures forall n | n in Removed(down, names) :: Removed(down, names)[n] == down[n]
  {
    if names != [] {
      RemovedAre(down, names[..|names| - 1]);
      assert names == names[..|names| - 1] + [names[|names| - 1]];
    }
  }

  lemma RemovedSnoc(down: map<string, Entry>, names: seq<string>, i: nat)
    requires i < |names| && (forall k | 0 <= k < |names| :: names[k] in down)
    requires forall j, k | 0 <= j < k < |names| :: names[j] != names[k]
    ensures names[i] in Removed(down, names[..i])
    ensures Removed(down, names[..i + 1]) == Removed(down, names[..i]) - {names[i]}
  {
    assert names[..i + 1][..i] == names[..i];
    RemovedAre(down, names[..i]);
  }

  ghost predicate AreAbsent(down: map<string, Entry>, names: set<string>, gone: seq<string>) {
    && (forall k | 0 <= k < |gone| :: gone[k] in down && gone[k] !in names)
    && (forall j, k | 0 <= j < k < |gone| :: gone[j] != gone[k])
  }

  /** `[n for n in down if n not in names]` */
  method Absent(down: map<string, Entry>, names: set<string>) returns (gone: seq<string>)
    ensures AreAbsent(down, names, gone)
    ensures Removed(down, gone) == Keep(down, names)
  {
    gone := [];
    var rest := down.Keys - names;
    while rest != {}
      invariant rest <= down.Keys - names
      invariant forall n :: n in gone <==> n in down && n !in names && n !in rest
      invariant forall j, k | 0 <= j < k < |gone| :: gone[j] != gone[k]
      decreases rest
    {
      var n :| n in rest;
      assert n !in gone;
      gone, rest := gone + [n], rest - {n};
    }
    RemovedAre(down, gone);
  }

  function Latest(pending: seq<Message>): (r: seq<Message>)
    ensures |r| <= MAX_PENDING && |r| <= |pending| && r == pending[|pending| - |r|..]
    ensures |r| == MAX_PENDING || r == pending
  {
    if |pending| > MAX_PENDING then pending[|pending| - MAX_PENDING..] else pending
  }

  // -- the record of what was said -------------------------------------------

  /** `began` and `look` number the looks that first saw the outage and that said so. */
  datatype Event =
    | Told(name: string, since: real, began: nat, look: nat)
    | Recovered(name: string, since: real, until: real, look: nat)
    | Forgotten(name: string, since: real, look: nat)

  function MessageOf(e: Event): seq<Message> {
    match e
    case Told(n, since, _, _) => [IsDown(n, since)]
    case Recovered(n, since, until, _) => [IsBack(n, since, until)]
    case Forgotten(_, _, _) => []
  }

  function MessagesOf(log: seq<Event>): seq<Message> {
    if log == [] then [] else MessagesOf(log[..|log| - 1]) + MessageOf(log[|log| - 1])
  }

  /** The outage of `name` that has been told and not ended. */
  function Open(log: seq<Event>, name: string): Option<real> {
    if log == [] then None
    else
      var e := log[|log| - 1];
      if e.name != name then Open(log[..|log| - 1], name)
      else if e.Told? then Some(e.since)
      else None
  }

  ghost predicate Alternates(log: seq<Event>) {
    log != [] ==>
      var front, e := log[..|log| - 1], log[|log| - 1];
      && Alternates(front)
      && (if e.Told? then Open(front, e.name).None? else Open(front, e.name) == Some(e.since))
  }

  predicate SeenDown(look: Look, name: string) {
    Host(name, true) in look.hosts
  }

  predicate SeenUp(look: Look, name: string) {
    Host(name, false) in look.hosts
  }

  /** Every look from number `began` up to but not including `upTo` saw it down, the first at `since`. */
  predicate DownThroughout(looks: seq<Look>, name: string, since: real, began: nat, upTo: nat)
    decreases upTo
  {
    && began < upTo <= |looks| && looks[began].at == since && SeenDown(looks[upTo - 1], name)
    && (began < upTo - 1 ==> DownThroughout(looks, name, since, began, upTo - 1))
  }

  lemma {:induction false} DownAtEachLook(looks: seq<Look>, name: string, since: real, began: nat, upTo: nat, k: nat)
    requires DownThroughout(looks, name, since, began, upTo) && began <= k < upTo
    ensures SeenDown(looks[k], name)
    decreases upTo
  {
    if k < upTo - 1 {
      DownAtEachLook(looks, name, since, began, upTo - 1, k);
    }
  }

  lemma {:induction false} StillDownThroughout(looks: seq<Look>, look: Look, name: string, since: real, began: nat,
                                               upTo: nat)
    requires DownThroughout(looks, name, since, began, upTo)
    ensures DownThroughout(looks + [look], name, since, began, upTo)
    decreases upTo
  {
    if began < upTo - 1 {
      StillDownThroughout(looks, look, name, since, began, upTo - 1);
    }
  }

  ghost predicate Justified(looks: seq<Look>, e: Event) {
    && e.look < |looks|
    && match e
       case Told(n, since, began, k) =>
         DownThroughout(looks, n, since, began, k + 1) && GraceIsOver(Entry(since, false), looks[k])
       case Recovered(n, _, until, k) => SeenUp(looks[k], n) && looks[k].at == until
       case Forgotten(n, _, k) => n !in HostNames(looks[k].hosts)
  }

  /** The events of one host. */
  function OfHost(log: seq<Event>, name: string): seq<Event> {
    if log == [] then []
    else
      OfHost(log[..|log| - 1], name) + (if log[|log| - 1].name == name then [log[|log| - 1]] else [])
  }

  /** Turn and turn about, an outage told first, and ended by an event about that very outage. */
  ghost predicate Paired(mine: seq<Event>) {
    mine != [] ==>
      var front, e := mine[..|mine| - 1], mine[|mine| - 1];
      && Paired(front)
      && (e.Told? <==> front == [] || !front[|front| - 1].Told?)
      && (!e.Told? ==> e.since == front[|front| - 1].since)
  }

  lemma PairedSnoc(mine: seq<Event>, e: Event)
    requires Paired(mine)
    requires e.Told? <==> mine == [] || !mine[|mine| - 1].Told?
    requires !e.Told? ==> e.since == mine[|mine| - 1].since
    ensures Paired(mine + [e])
  {
    assert (mine + [e])[..|mine|] == mine;
  }

  /** Each host's events alternate. */
  lemma {:induction false} HostsAlternate(log: seq<Event>, name: string)
    requires Alternates(log)
    ensures var mine := OfHost(log, name);
            && Paired(mine)
            && (Open(log, name).Some? <==> mine != [] && mine[|mine| - 1].Told?)
            && (Open(log, name).Some? ==> mine[|mine| - 1].since == Open(log, name).value)
  {
    if log != [] {
      var front, e := log[..|log| - 1], log[|log| - 1];
      HostsAlternate(front, name);
      var mine := OfHost(front, name);
      if e.name == name {
        PairedSnoc(mine, e);
        assert OfHost(log, name) == mine + [e];
      } else {
        assert mine + [] == mine;
        assert OfHost(log, name) == mine;
      }
    }
  }

  /** Read off by position: the outages at even places, their ends at odd ones. */
  lemma {:induction false} EvenPlacesTell(mine: seq<Event>, i: nat)
    requires Paired(mine) && i < |mine|
    ensures mine[i].Told? <==> i % 2 == 0
    ensures i % 2 == 1 ==> mine[i].since == mine[i - 1].since
  {
    var front := mine[..|mine| - 1];
    if i < |front| {
      EvenPlacesTell(front, i);
      assert front[i] == mine[i];
    } else if i > 0 {
      EvenPlacesTell(front, i - 1);
      assert front[i - 1] == mine[i - 1];
    }
  }

  ghost predicate TurnAndTurnAbout(mine: seq<Event>) {
    forall i | 0 <= i < |mine| ::
      if i % 2 == 0 then mine[i].Told? else mine[i].Recovered? && mine[i].since == mine[i - 1].since
  }

  lemma QueueGrows(queued: seq<Message>, gone: nat, pending: seq<Message>, said: seq<Message>)
    requires gone <= |queued| && pending == queued[gone..]
    ensures pending + said == (queued + said)[gone..]
  {
  }

  lemma LatestIsSuffix(queued: seq<Message>, gone: nat, pending: seq<Message>)
    requires gone <= |queued| && pending == queued[gone..]
    ensures var more := gone + |pending| - |Latest(pending)|;
            more <= |queued| && Latest(pending) == queued[more..]
  {
    assert |pending| == |queued| - gone;
  }

  lemma {:induction false} OfHostAre(log: seq<Event>, name: string, e: Event)
    ensures e in OfHost(log, name) <==> e in log && e.name == name
  {
    if log != [] {
      var front, last := log[..|log| - 1], log[|log| - 1];
      OfHostAre(front, name, e);
      assert log == front + [last];
    }
  }

  // -- keeping the books -----------------------------------------------------

  ghost predicate LogOk(log: seq<Event>, queued: seq<Message>, looks: seq<Look>) {
    Alternates(log) && queued == MessagesOf(log) && forall e | e in log :: Justified(looks, e)
  }

  function ToldSince(entry: Option<Entry>): Option<real> {
    if entry.Some? && entry.value.told then Some(entry.value.since) else None
  }

  ghost predicate OpenOk(log: seq<Event>, down: map<string, Entry>) {
    forall n :: Open(log, n) == ToldSince(At(down, n))
  }

  /** The current look is the last; `seen` are the hosts it has been applied to. */
  ghost predicate OutagesOk(down: map<string, Entry>, looks: seq<Look>, began: map<string, nat>, seen: set<string>) {
    && looks != []
    && forall n | n in down :: n in began &&
         DownThroughout(looks, n, down[n].since, began[n], if n in seen then |looks| else |looks| - 1)
  }

  lemma LogSnoc(log: seq<Event>, queued: seq<Message>, looks: seq<Look>, e: Event)
    requires LogOk(log, queued, looks) && Justified(looks, e)
    requires if e.Told? then Open(log, e.name).None? else Open(log, e.name) == Some(e.since)
    ensures LogOk(log + [e], queued + MessageOf(e), looks)
    ensures forall n :: Open(log + [e], n) ==
              if n != e.name then Open(log, n) else if e.Told? then Some(e.since) else None
  {
    assert (log + [e])[..|log|] == log;
  }

  lemma LaterLooks(looks: seq<Look>, look: Look, e: Event)
    requires Justified(looks, e)
    ensures Justified(looks + [look], e)
  {
    var more := looks + [look];
    assert more[e.look] == looks[e.look];
    if e.Told? {
      StillDownThroughout(looks, look, e.name, e.since, e.began, e.look + 1);
    }
  }

  /** Before any host is looked at, the next look only adds a place. */
  lemma NextLook(log: seq<Event>, queued: seq<Message>, down: map<string, Entry>, looks: seq<Look>,
                 began: map<string, nat>, seen: set<string>, look: Look)
    requires LogOk(log, queued, looks)
    requires down == map[] || (OutagesOk(down, looks, began, seen) && down.Keys <= seen)
    ensures LogOk(log, queued, looks + [look])
    ensures OutagesOk(down, looks + [look], began, {})
  {
    var more := looks + [look];
    forall e | e in log
      ensures Justified(more, e)
    {
      LaterLooks(looks, look, e);
    }
    forall n | n in down
      ensures n in began && DownThroughout(more, n, down[n].since, began[n], |looks|)
    {
      StillDownThroughout(looks, look, n, down[n].since, began[n], |looks|);
    }
  }

  /** Seen down once more. */
  lemma OneMoreLook(down: map<string, Entry>, looks: seq<Look>, began: map<string, nat>, seen: set<string>,
                    name: string, told: bool)
    requires OutagesOk(down, looks, began, seen) && name in down && SeenDown(looks[|looks| - 1], name)
    ensures OutagesOk(down[name := down[name].(told := told)], looks, began, seen + {name})
    ensures DownThroughout(looks, name, down[name].since, began[name], |looks|)
  {
    assert DownThroughout(looks, name, down[name].since, began[name], if name in seen then |looks| else |looks| - 1);
    assert DownThroughout(looks, name, down[name].since, began[name], |looks|);
    forall n | n in down && n != name
      ensures DownThroughout(looks, n, down[n].since, began[n], if n in seen + {name} then |looks| else |looks| - 1)
    {
      assert DownThroughout(looks, n, down[n].since, began[n], if n in seen then |looks| else |looks| - 1);
    }
  }

  lemma NothingThere(down: map<string, Entry>, looks: seq<Look>, began: map<string, nat>, seen: set<string>,
                     name: string)
    requires OutagesOk(down, looks, began, seen) && name !in down
    ensures OutagesOk(down, looks, began, seen + {name})
  {
    forall n | n in down
      ensures DownThroughout(looks, n, down[n].since, began[n], if n in seen + {name} then |looks| else |looks| - 1)
    {
      assert DownThroughout(looks, n, down[n].since, began[n], if n in seen then |looks| else |looks| - 1);
    }
  }

  lemma EntryGone(down: map<string, Entry>, looks: seq<Look>, began: map<string, nat>, seen: set<string>, name: string)
    requires OutagesOk(down, looks, began, seen)
    ensures OutagesOk(down - {name}, looks, began, seen + {name})
  {
    forall n | n in down - {name}
      ensures DownThroughout(looks, n, down[n].since, began[n], if n in seen + {name} then |looks| else |looks| - 1)
    {
      assert DownThroughout(looks, n, down[n].since, began[n], if n in seen then |looks| else |looks| - 1);
    }
  }

  lemma SeenIsEnough(down: map<string, Entry>, looks: seq<Look>, began: map<string, nat>, seen: set<string>)
    requires OutagesOk(down, looks, began, seen) && down.Keys <= seen
    ensures OutagesOk(down, looks, began, down.Keys)
  {
  }

  lemma Unlisted(down: map<string, Entry>, looks: seq<Look>, began: map<string, nat>, seen: set<string>, name: string)
    requires OutagesOk(down, looks, began, seen)
    ensures OutagesOk(down - {name}, looks, began, seen)
  {
    forall n | n in down - {name}
      ensures DownThroughout(looks, n, down[n].since, began[n], if n in seen then |looks| else |looks| - 1)
    {
    }
  }

  lemma Began(log: seq<Event>, down: map<string, Entry>, looks: seq<Look>, began: map<string, nat>, seen: set<string>,
              name: string)
    requires OutagesOk(down, looks, began, seen) && OpenOk(log, down) && name !in down &&
             SeenDown(looks[|looks| - 1], name)
    ensures var entry := Entry(looks[|looks| - 1].at, false);
            && OutagesOk(down[name := entry], looks, began[name := |looks| - 1], seen + {name})
            && OpenOk(log, down[name := entry])
  {
    var entry := Entry(looks[|looks| - 1].at, false);
    NothingThere(down, looks, began, seen, name);
    forall n
      ensures Open(log, n) == ToldSince(At(down[name := entry], n))
    {
      assert Open(log, n) == ToldSince(At(down, n));
    }
  }

  /** The log is about to say of `name` what the table says already. */
  ghost predicate OpenBut(log: seq<Event>, down: map<string, Entry>, name: string, since: Option<real>) {
    forall n :: (if n == name then since else Open(log, n)) == ToldSince(At(down, n))
  }

  /** One entry changes, and with it what is open for its host alone. */
  lemma OpenFollows(log: seq<Event>, down: map<string, Entry>, name: string, entry: Option<Entry>)
    requires OpenOk(log, down)
    ensures Open(log, name) == ToldSince(At(down, name))
    ensures var after := if entry.Some? then down[name := entry.value] else down - {name};
            OpenBut(log, after, name, ToldSince(entry))
  {
    var after := if entry.Some? then down[name := entry.value] else down - {name};
    forall n
      ensures (if n == name then ToldSince(entry) else Open(log, n)) == ToldSince(At(after, n))
    {
      assert Open(log, n) == ToldSince(At(down, n));
    }
  }

  // -- what the looks make of one host ---------------------------------------

  ghost predicate AllDistinct(looks: seq<Look>) {
    forall k | 0 <= k < |looks| :: Distinct(looks[k].hosts)
  }

  ghost predicate InTime(looks: seq<Look>) {
    forall i, j | 0 <= i < j < |looks| :: looks[i].at <= looks[j].at
  }

  /** The host's entry after the looks: an outage begins at the first look that sees it down, and ends at
      the first that does not. */
  function EntryOver(looks: seq<Look>, name: string): Option<Entry> {
    if looks == [] then None
    else
      var last := looks[|looks| - 1];
      NextEntry(EntryOver(looks[..|looks| - 1], name), SeenDown(last, name), last)
  }

  ghost predicate TableIs(down: map<string, Entry>, looks: seq<Look>) {
    forall n :: At(down, n) == EntryOver(looks, n)
  }

  /** The tables these looks can have left: with each host named once at every look, the one whose entries
      are what the looks make of each host. */
  ghost function Tables(looks: seq<Look>): iset<map<string, Entry>> {
    iset down | AllDistinct(looks) ==> TableIs(down, looks)
  }

  lemma TableStays(was: map<string, Entry>, looks: seq<Look>, look: Look)
    requires was in Tables(looks)
    ensures Keep(AfterHosts(was, look.hosts, look), HostNames(look.hosts)) in Tables(looks + [look])
  {
    var more := looks + [look];
    if AllDistinct(more) {
      assert more[|looks|] == look;
      assert forall k | 0 <= k < |looks| :: more[k] == looks[k];
      TableFollows(was, looks, look);
    }
  }

  lemma TableFollows(was: map<string, Entry>, looks: seq<Look>, look: Look)
    requires TableIs(was, looks) && Distinct(look.hosts)
    ensures TableIs(Keep(AfterHosts(was, look.hosts, look), HostNames(look.hosts)), looks + [look])
  {
    var after := AfterHosts(was, look.hosts, look);
    EachHostOnItsOwn(was, look.hosts, look);
    assert (looks + [look])[..|looks|] == looks;
    forall n
      ensures At(Keep(after, HostNames(look.hosts)), n) == EntryOver(looks + [look], n)
    {
      if n in HostNames(look.hosts) {
        var h :| h in look.hosts && h.name == n;
        OneOfTheHosts(look, h);
        assert At(after, n) == NextEntry(At(was, n), h.isDown, look);
      }
    }
  }

  lemma NamedOnce(hosts: seq<Host>, g: Host, h: Host)
    requires Distinct(hosts) && g in hosts && h in hosts && g.name == h.name
    ensures g == h
  {
    var i :| 0 <= i < |hosts| && hosts[i] == g;
    var j :| 0 <= j < |hosts| && hosts[j] == h;
    assert i == j;
  }

  /** A host is seen one way at a look. */
  lemma OneOfTheHosts(look: Look, h: Host)
    requires Distinct(look.hosts) && h in look.hosts
    ensures h.isDown <==> SeenDown(look, h.name)
  {
    if SeenDown(look, h.name) {
      NamedOnce(look.hosts, h, Host(h.name, true));
    }
  }

  /** From look `i` on it is seen down: the entry dates from look `i` or before. */
  lemma {:induction false} EntryStays(looks: seq<Look>, name: string, i: nat, j: nat)
    requires i <= j < |looks| && InTime(looks) && forall k | i <= k <= j :: SeenDown(looks[k], name)
    ensures EntryOver(looks[..j + 1], name).Some? && EntryOver(looks[..j + 1], name).value.since <= looks[i].at
    decreases j
  {
    assert looks[..j + 1][..j] == looks[..j];
    if i < j {
      EntryStays(looks, name, i, j - 1);
    } else {
      EntryIsPast(looks, name, j);
    }
  }

  lemma {:induction false} EntryIsPast(looks: seq<Look>, name: string, j: nat)
    requires j < |looks| && InTime(looks)
    ensures EntryOver(looks[..j], name).Some? ==> EntryOver(looks[..j], name).value.since <= looks[j].at
  {
    if j > 0 {
      assert looks[..j][..j - 1] == looks[..j - 1];
      EntryIsPast(looks, name, j - 1);
    }
  }

  lemma ToldByThen(looks: seq<Look>, name: string, i: nat)
    requires i + 1 < |looks| && InTime(looks) && forall k | i <= k < |looks| :: SeenDown(looks[k], name)
    requires var last := looks[|looks| - 1]; last.at - looks[i].at >= (last.minutes * 60) as real
    ensures EntryOver(looks, name).Some? && EntryOver(looks, name).value.told
    ensures EntryOver(looks, name).value.since <= looks[i].at
  {
    EntryStays(looks, name, i, |looks| - 2);
    assert looks[..|looks| - 2 + 1] == looks[..|looks| - 1];
  }

  lemma {:induction false} OpenIsTold(log: seq<Event>, name: string)
    requires Open(log, name).Some?
    ensures exists e :: e in log && e.Told? && e.name == name && e.since == Open(log, name).value
  {
    var front, last := log[..|log| - 1], log[|log| - 1];
    if last.name != name {
      OpenIsTold(front, name);
      assert forall e | e in front :: e in log;
    } else {
      assert last in log;
    }
  }

  // -- the watch -------------------------------------------------------------

  datatype Fate = Sent | Dropped

  function All(fate: Fate, n: nat): (r: seq<Fate>)
    ensures |r| == n && forall f | f in r :: f == fate
  {
    if n == 0 then [] else [fate] + All(fate, n - 1)
  }

  /** What is pending after an attempt to send: nothing if it went out, else the latest. */
  function Left(pending: seq<Message>, delivers: bool): seq<Message> {
    if delivers then [] else Latest(pending)
  }

  /** The fates it decides: too old for the cap are dropped, and the others sent or still pending. */
  function Decided(pending: seq<Message>, delivers: bool): seq<Fate> {
    All(Dropped, |pending| - |Latest(pending)|) + All(Sent, if delivers then |Latest(pending)| else 0)
  }

  /** The table and the queues once the first `i` hosts have been noted. */
  ghost function NotedUpTo(look: Look, i: nat, was: map<string, Entry>, p: seq<Message>, q: seq<Message>)
      : iset<(map<string, Entry>, seq<Message>, seq<Message>)>
    requires i <= |look.hosts|
  {
    iset s: (map<string, Entry>, seq<Message>, seq<Message>) |
      && s.0 == AfterHosts(was, look.hosts[..i], look)
      && s.1 == p + AllSaid(was, look.hosts[..i], look)
      && s.2 == q + AllSaid(was, look.hosts[..i], look)
  }

  lemma OneMoreNoted(look: Look, i: nat, was: map<string, Entry>, p: seq<Message>, q: seq<Message>,
                     s: (map<string, Entry>, seq<Message>, seq<Message>), down: map<string, Entry>,
                     pending: seq<Message>, queued: seq<Message>)
    requires i < |look.hosts| && s in NotedUpTo(look, i, was, p, q)
    requires var h := look.hosts[i];
             && down == Put(s.0, h.name, NextEntry(At(s.0, h.name), h.isDown, look))
             && pending == s.1 + Said(At(s.0, h.name), h, look)
             && queued == s.2 + Said(At(s.0, h.name), h, look)
    ensures (down, pending, queued) in NotedUpTo(look, i + 1, was, p, q)
    ensures HostNames(look.hosts[..i + 1]) == HostNames(look.hosts[..i]) + {look.hosts[i].name}
  {
    var h := look.hosts[i];
    var front, said := AllSaid(was, look.hosts[..i], look), Said(At(s.0, h.name), h, look);
    OneHostMore(was, look.hosts, look, i);
    Append(p, front, said);
    Append(q, front, said);
  }

  class Watcher {
    var down: map<string, Entry>
    var pending: seq<Message>
    ghost var queued: seq<Message>
    /** Of the messages no longer pending, oldest first. */
    ghost var fates: seq<Fate>
    ghost var log: seq<Event>
    ghost var looks: seq<Look>
    ghost var began: map<string, nat>

    ghost predicate InStep(seen: set<string>)
      reads this`log, this`queued, this`looks, this`down, this`began
    {
      LogOk(log, queued, looks) && OpenOk(log, down) && OutagesOk(down, looks, began, seen)
    }

    /** What is pending is the end of what was queued. */
    ghost predicate QueueOk()
      reads this`fates, this`queued, this`pending
    {
      |fates| <= |queued| && pending == queued[|fates|..]
    }

    ghost predicate Valid()
      reads this
    {
      BooksOk() && QueueOk() && down in Tables(looks) && |pending| <= MAX_PENDING
    }

    constructor ()
      ensures Valid() && down == map[] && pending == []
    {
      down, pending := map[], [];
      queued, fates, log, looks, began := [], [], [], [], map[];
    }

    /** A host is reported down only when every look over the whole grace saw it down. */
    lemma ToldOnlyAfterTheGrace(e: Event)
      requires Valid() && e in log && e.Told?
      ensures e.began <= e.look < |looks| && looks[e.began].at == e.since
      ensures looks[e.look].at - e.since >= (looks[e.look].minutes * 60) as real
      ensures forall k | e.began <= k <= e.look :: SeenDown(looks[k], e.name)
    {
      assert Justified(looks, e);
      forall k: nat | e.began <= k <= e.look
        ensures SeenDown(looks[k], e.name)
      {
        DownAtEachLook(looks, e.name, e.since, e.began, e.look + 1, k);
      }
    }

    /** And it is reported as soon as that is so: a host that every look over the grace saw down, the last
        among them, has been told, dated to the first of these looks or before, and not been taken back. */
    lemma ToldOnceTheGraceIsOver(name: string, i: nat)
      requires Valid() && AllDistinct(looks) && InTime(looks)
      requires i + 1 < |looks| && forall k | i <= k < |looks| :: SeenDown(looks[k], name)
      requires var last := looks[|looks| - 1]; last.at - looks[i].at >= (last.minutes * 60) as real
      ensures exists e :: e in log && e.Told? && e.name == name && e.since <= looks[i].at &&
                Open(log, name) == Some(e.since)
    {
      ToldByThen(looks, name, i);
      assert At(down, name) == EntryOver(looks, name);
      assert Open(log, name) == ToldSince(At(down, name));
      OpenIsTold(log, name);
    }

    /** While a host stays configured it is told down and told back, turn and turn about, each pair
        about one outage, and nothing else. */
    lemma ConfiguredHostsAlternate(name: string)
      requires Valid() && forall k | 0 <= k < |looks| :: name in HostNames(looks[k].hosts)
      ensures TurnAndTurnAbout(OfHost(log, name))
    {
      HostsAlternate(log, name);
      var mine := OfHost(log, name);
      forall i {:trigger mine[i]} | 0 <= i < |mine|
        ensures if i % 2 == 0 then mine[i].Told? else mine[i].Recovered? && mine[i].since == mine[i - 1].since
      {
        EvenPlacesTell(mine, i);
        var e := mine[i];
        assert e in mine;
        OfHostAre(log, name, e);
        assert Justified(looks, e);
        assert name in HostNames(looks[e.look].hosts);
      }
    }

    method Queue(m: Message, ghost e: Event)
      requires LogOk(log, queued, looks) && Justified(looks, e) && MessageOf(e) == [m]
      requires if e.Told? then Open(log, e.name).None? else Open(log, e.name) == Some(e.since)
      requires OpenBut(log, down, e.name, if e.Told? then Some(e.since) else None)
      modifies this`pending, this`queued, this`log
      ensures LogOk(log, queued, looks)
      ensures pending == old(pending) + [m] && queued == old(queued) + [m]
      ensures OpenOk(log, down)
    {
      LogSnoc(log, queued, looks, e);
      log, queued := log + [e], queued + [m];
      pending := pending + [m];
    }

    method Begin(name: string, look: Look, ghost seen: set<string>)
      requires InStep(seen) && looks[|looks| - 1] == look && name !in down && SeenDown(look, name)
      modifies this`down, this`began
      ensures InStep(seen + {name}) && down == old(down)[name := Entry(look.at, false)]
    {
      Began(log, down, looks, began, seen, name);
      down, began := down[name := Entry(look.at, false)], began[name := |looks| - 1];
    }

    method Tell(name: string, look: Look, ghost seen: set<string>)
      requires InStep(seen) && looks[|looks| - 1] == look && SeenDown(look, name)
      requires name in down && !down[name].told && GraceIsOver(down[name], look)
      modifies this`down, this`pending, this`queued, this`log
      ensures InStep(seen + {name})
      ensures down == old(down)[name := Entry(old(down)[name].since, true)]
      ensures pending == old(pending) + [IsDown(name, old(down)[name].since)]
      ensures queued == old(queued) + [IsDown(name, old(down)[name].since)]
    {
      var since := down[name].since;
      OneMoreLook(down, looks, began, seen, name, true);
      OpenFollows(log, down, name, Some(Entry(since, true)));
      down := down[name := Entry(since, true)];
      Queue(IsDown(name, since), Told(name, since, began[name], |looks| - 1));
    }

    method End(name: string, look: Look, ghost seen: set<string>)
      requires InStep(seen) && looks[|looks| - 1] == look && SeenUp(look, name) && name in down
      modifies this`down, this`pending, this`queued, this`log
      ensures InStep(seen + {name}) && down == old(down) - {name}
      ensures var message := if old(down)[name].told then [IsBack(name, old(down)[name].since, look.at)] else [];
              pending == old(pending) + message && queued == old(queued) + message
    {
      var entry := down[name];
      EntryGone(down, looks, began, seen, name);
      OpenFollows(log, down, name, None);
      down := down - {name};
      if entry.told {
        Queue(IsBack(name, entry.since, look.at), Recovered(name, entry.since, look.at, |looks| - 1));
      }
    }

    /** One host of a look. */
    method Note(h: Host, look: Look, ghost seen: set<string>)
      requires InStep(seen) && looks[|looks| - 1] == look && h in look.hosts
      modifies this`down, this`pending, this`queued, this`log, this`began
      ensures InStep(seen + {h.name})
      ensures down == Put(old(down), h.name, NextEntry(At(old(down), h.name), h.isDown, look))
      ensures pending == old(pending) + Said(At(old(down), h.name), h, look)
      ensures queued == old(queued) + Said(At(old(down), h.name), h, look)
    {
      if h.isDown {
        assert SeenDown(look, h.name);
        NoteDown(h, look, seen);
      } else {
        assert SeenUp(look, h.name);
        if h.name in down {
          End(h.name, look, seen);
        } else {
          NothingThere(down, looks, began, seen, h.name);
        }
      }
    }

    method NoteDown(h: Host, look: Look, ghost seen: set<string>)
      requires InStep(seen) && looks[|looks| - 1] == look && h.isDown && SeenDown(look, h.name)
      modifies this`down, this`pending, this`queued, this`log, this`began
      ensures InStep(seen + {h.name})
      ensures down == Put(old(down), h.name, NextEntry(At(old(down), h.name), true, look))
      ensures pending == old(pending) + Said(At(old(down), h.name), h, look)
      ensures queued == old(queued) + Said(At(old(down), h.name), h, look)
    {
      if h.name !in down {
        Begin(h.name, look, seen);
      } else if !down[h.name].told && GraceIsOver(down[h.name], look) {
        Tell(h.name, look, seen);
      } else {
        OneMoreLook(down, looks, began, seen, h.name, down[h.name].told);
        assert down[h.name := down[h.name]] == down;
      }
    }

    /** One machine no longer in the config. */
    method Drop(name: string, ghost look: Look, ghost names: set<string>)
      requires InStep(names) && looks[|looks| - 1] == look && names == HostNames(look.hosts)
      requires name in down && name !in names
      modifies this`down, this`log
      ensures InStep(names) && down == old(down) - {name}
    {
      ghost var e := Forgotten(name, down[name].since, |looks| - 1);
      Unlisted(down, looks, began, names, name);
      OpenFollows(log, down, name, None);
      if down[name].told {
        LogSnoc(log, queued, looks, e);
        log := log + [e];
      }
      down := down - {name};
    }

    /** The first `i` of the machines that are gone were dropped. */
    ghost predicate Dropping(was: map<string, Entry>, gone: seq<string>, i: nat, look: Look, names: set<string>)
      reads this
    {
      && InStep(names) && looks[|looks| - 1] == look && names == HostNames(look.hosts)
      && AreAbsent(was, names, gone) && Removed(was, gone) == Keep(was, names)
      && i <= |gone| && down == Removed(was, gone[..i])
    }

    lemma AllDropped(was: map<string, Entry>, gone: seq<string>, look: Look, names: set<string>)
      requires Dropping(was, gone, |gone|, look, names)
      ensures down == Keep(was, names)
    {
      assert gone[..|gone|] == gone;
    }

    method DropOthers(ghost look: Look, names: set<string>)
      requires InStep(names) && looks[|looks| - 1] == look && names == HostNames(look.hosts)
      modifies this`down, this`log
      ensures InStep(names) && down == Keep(old(down), names)
    {
      var gone := Absent(down, names);
      ghost var was := down;
      for i := 0 to |gone|
        invariant Dropping(was, gone, i, look, names)
      {
        DropNext(was, gone, i, look, names);
      }
      AllDropped(was, gone, look, names);
    }

    method DropNext(ghost was: map<string, Entry>, gone: seq<string>, i: nat, ghost look: Look,
                    ghost names: set<string>)
      requires i < |gone| && Dropping(was, gone, i, look, names)
      modifies this`down, this`log
      ensures Dropping(was, gone, i + 1, look, names)
    {
      RemovedSnoc(was, gone, i);
      Drop(gone[i], look, names);
    }

    /** The look has been applied to its first `i` hosts. */
    ghost predicate Noted(look: Look, i: nat, was: map<string, Entry>, p: seq<Message>, q: seq<Message>)
      reads this
    {
      && i <= |look.hosts| && looks != [] && looks[|looks| - 1] == look && InStep(HostNames(look.hosts[..i]))
      && (down, pending, queued) in NotedUpTo(look, i, was, p, q)
    }

    lemma NoneNoted(look: Look)
      requires InStep({}) && looks[|looks| - 1] == look
      ensures Noted(look, 0, down, pending, queued)
    {
    }

    lemma AllNoted(look: Look, was: map<string, Entry>, p: seq<Message>, q: seq<Message>)
      requires Noted(look, |look.hosts|, was, p, q)
      ensures InStep(HostNames(look.hosts)) && down == AfterHosts(was, look.hosts, look)
      ensures pending == p + AllSaid(was, look.hosts, look) && queued == q + AllSaid(was, look.hosts, look)
    {
      assert look.hosts[..|look.hosts|] == look.hosts;
    }

    method LookAtAll(look: Look)
      requires InStep({}) && looks[|looks| - 1] == look
      modifies this`down, this`pending, this`queued, this`log, this`began
      ensures InStep(HostNames(look.hosts))
      ensures down == AfterHosts(old(down), look.hosts, look)
      ensures pending == old(pending) + AllSaid(old(down), look.hosts, look)
      ensures queued == old(queued) + AllSaid(old(down), look.hosts, look)
    {
      ghost var was, p, q := down, pending, queued;
      NoneNoted(look);
      for i := 0 to |look.hosts|
        invariant Noted(look, i, was, p, q)
      {
        NoteNext(look, i, was, p, q);
      }
      AllNoted(look, was, p, q);
    }

    method NoteNext(look: Look, i: nat, ghost was: map<string, Entry>, ghost p: seq<Message>, ghost q: seq<Message>)
      requires i < |look.hosts| && Noted(look, i, was, p, q)
      modifies this`down, this`pending, this`queued, this`log, this`began
      ensures Noted(look, i + 1, was, p, q)
    {
      ghost var before := (down, pending, queued);
      Note(look.hosts[i], look, HostNames(look.hosts[..i]));
      OneMoreNoted(look, i, was, p, q, before, down, pending, queued);
    }

    ghost predicate BooksOk()
      reads this`log, this`queued, this`looks, this`down, this`began
    {
      LogOk(log, queued, looks) && OpenOk(log, down) && (down == map[] || OutagesOk(down, looks, began, down.Keys))
    }

    ghost method NewLook(look: Look)
      requires BooksOk()
      modifies this`looks
      ensures InStep({}) && looks == old(looks) + [look]
    {
      NextLook(log, queued, down, looks, began, down.Keys, look);
      looks := looks + [look];
    }

    method Survey(look: Look)
      requires BooksOk() && QueueOk()
      modifies this`down, this`pending, this`queued, this`log, this`began, this`looks
      ensures BooksOk() && QueueOk()
      ensures looks == old(looks) + [look]
      ensures down == Keep(AfterHosts(old(down), look.hosts, look), HostNames(look.hosts))
      ensures pending == old(pending) + AllSaid(old(down), look.hosts, look)
      ensures queued == old(queued) + AllSaid(old(down), look.hosts, look)
    {
      QueueGrows(queued, |fates|, pending, AllSaid(down, look.hosts, look));
      NewLook(look);
      LookAtAll(look);
      DropOthers(look, HostNames(look.hosts));
      SeenIsEnough(down, looks, began, HostNames(look.hosts));
    }

    /** `watch`. `hasBot` is whether Telegram is configured, `accepts` whether sending would succeed. */
    method Watch(hosts: seq<Host>, minutes: int, now: real, hasBot: bool, accepts: bool)
      requires Valid()
      modifies this
      ensures Valid() && |pending| <= 50
      ensures minutes == 0 ==>
                && down == old(down) && pending == old(pending)
                && queued == old(queued) && fates == old(fates) && log == old(log)
      ensures minutes != 0 ==>
                var look := Look(now, minutes, hosts);
                var said := AllSaid(old(down), hosts, look);
                && looks == old(looks) + [look]
                && down == Keep(AfterHosts(old(down), hosts, look), HostNames(hosts))
                && queued == old(queued) + said
                && pending == Left(old(pending) + said, hasBot && accepts)
                && fates == old(fates) + Decided(old(pending) + said, hasBot && accepts)
    {
      if minutes != 0 {
        LookAndSend(Look(now, minutes, hosts), hasBot, accepts);
      }
    }

    method LookAndSend(look: Look, hasBot: bool, accepts: bool)
      requires Valid()
      modifies this
      ensures Valid() && looks == old(looks) + [look]
      ensures var said := AllSaid(old(down), look.hosts, look);
              && down == Keep(AfterHosts(old(down), look.hosts, look), HostNames(look.hosts))
              && queued == old(queued) + said
              && pending == Left(old(pending) + said, hasBot && accepts)
              && fates == old(fates) + Decided(old(pending) + said, hasBot && accepts)
    {
      LookRound(look);
      Flush(hasBot, accepts);
    }

    method LookRound(look: Look)
      requires BooksOk() && QueueOk() && down in Tables(looks)
      modifies this`down, this`pending, this`queued, this`log, this`began, this`looks
      ensures BooksOk() && QueueOk() && down in Tables(looks)
      ensures looks == old(looks) + [look]
      ensures down == Keep(AfterHosts(old(down), look.hosts, look), HostNames(look.hosts))
      ensures pending == old(pending) + AllSaid(old(down), look.hosts, look)
      ensures queued == old(queued) + AllSaid(old(down), look.hosts, look)
    {
      TableStays(down, looks, look);
      Survey(look);
    }

    method Flush(hasBot: bool, accepts: bool)
      requires BooksOk() && QueueOk() && down in Tables(looks)
      modifies this`pending, this`fates
      ensures Valid()
      ensures pending == Left(old(pending), hasBot && accepts)
      ensures fates == old(fates) + Decided(old(pending), hasBot && accepts)
    {
      SendOrKeep(hasBot, accepts);
    }

    method SendOrKeep(hasBot: bool, accepts: bool)
      requires QueueOk()
      modifies this`pending, this`fates
      ensures QueueOk() && |pending| <= MAX_PENDING
      ensures pending == Left(old(pending), hasBot && accepts)
      ensures fates == old(fates) + Decided(old(pending), hasBot && accepts)
    {
      ghost var before := pending;
      Cap();
      ghost var dropped := All(Dropped, |before| - |pending|);
      if pending != [] && hasBot && accepts {
        Append(old(fates), dropped, All(Sent, |pending|));
        Deliver();
      } else {
        Append(old(fates), dropped, []);
      }
    }

    /** `del pending[:-MAX_PENDING]` */
    method Cap()
      requires QueueOk()
      modifies this`pending, this`fates
      ensures QueueOk() && pending == Latest(old(pending))
      ensures fates == old(fates) + All(Dropped, |old(pending)| - |pending|)
    {
      LatestIsSuffix(queued, |fates|, pending);
      fates := fates + All(Dropped, |pending| - |Latest(pending)|);
      pending := Latest(pending);
    }

    method Deliver()
      requires QueueOk()
      modifies this`pending, this`fates
      ensures QueueOk() && pending == [] && fates == old(fates) + All(Sent, |old(pending)|)
    {
      fates := fates + All(Sent, |pending|);
      pending := [];
    }
  }
}
