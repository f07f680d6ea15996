/** The wakes under way: `_waking` and `_failed`, changed by button presses and by the threads that
    end, each under the lock and in any order. */
module WakeBoard {
  import opened Fleet

  /** A wake of `guest` through its sleeping `hypervisor`, on a thread of its own. */
  datatype Chain = Chain(guest: string, hypervisor: string)

  function NamesOf(c: Chain): set<string> {
    {c.guest, c.hypervisor}
  }

  function AllNames(chains: map<nat, Chain>): set<string> {
    set id, n | id in chains && n in NamesOf(chains[id]) :: n
  }

  ghost predicate PairwiseDisjoint(chains: map<nat, Chain>) {
    forall i, j | i in chains && j in chains && i != j :: NamesOf(chains[i]) !! NamesOf(chains[j])
  }

  /** The end of one chain clears its own rows and nobody else's. */
  lemma LeavingClearsOnlyItsOwn(chains: map<nat, Chain>, id: nat)
    requires PairwiseDisjoint(chains) && id in chains
    ensures AllNames(chains) - NamesOf(chains[id]) == AllNames(chains - {id})
    ensures PairwiseDisjoint(chains - {id})
  {
    var rest := chains - {id};
    forall n
      ensures n in AllNames(chains) - NamesOf(chains[id]) <==> n in AllNames(rest)
    {
      if n in AllNames(chains) && n !in NamesOf(chains[id]) {
        var i :| i in chains && n in NamesOf(chains[i]);
        assert i in rest;
      }
      if n in AllNames(rest) {
        var i :| i in rest && n in NamesOf(rest[i]);
        assert NamesOf(chains[i]) !! NamesOf(chains[id]);
      }
    }
  }

  lemma Within(chains: map<nat, Chain>, id: nat)
    requires id in chains
    ensures NamesOf(chains[id]) <= AllNames(chains)
  {
  }

  lemma NamesJoin(chains: map<nat, Chain>, id: nat, c: Chain)
    requires id !in chains
    ensures AllNames(chains[id := c]) == AllNames(chains) + NamesOf(c)
  {
    var more := chains[id := c];
    assert more.Keys == chains.Keys + {id};
    forall n | n in AllNames(chains)
      ensures n in AllNames(more)
    {
      var i :| i in chains && n in NamesOf(chains[i]);
      assert i in more && more[i] == chains[i];
    }
    Within(more, id);
  }

  /** A press whose names are all free keeps the chains apart. */
  lemma JoiningKeepsApart(chains: map<nat, Chain>, id: nat, c: Chain)
    requires PairwiseDisjoint(chains) && id !in chains && NamesOf(c) !! AllNames(chains)
    ensures PairwiseDisjoint(chains[id := c])
    ensures AllNames(chains[id := c]) == AllNames(chains) + NamesOf(c)
  {
    NamesJoin(chains, id, c);
    var more := chains[id := c];
    forall i, j | i in more && j in more && i != j
      ensures NamesOf(more[i]) !! NamesOf(more[j])
    {
      if i != id { Within(chains, i); }
      if j != id { Within(chains, j); }
    }
  }

  const FAILURE_SHOWN := 600.0

  /** Why a chained wake failed, and when. */
  datatype Failure = Failure(at: real, message: string)

  // -- presses and threads in any order --------------------------------------

  /** `waking` and `failed` are the source's; `chains` are the threads that have not ended, `told` what
      those of them that failed have recorded, `left` the threads that have ended, with their failure. */
  datatype State = State(
    waking: set<string>,
    failed: map<string, Failure>,
    chains: map<nat, Chain>,
    told: map<nat, Failure>,
    left: map<nat, (Chain, Option<Failure>)>,
    pressed: nat,
    clock: real)

  datatype Step =
    | Press(guest: string, hypervisor: string)   // accepted only if neither name is in flight
    | Fail(id: nat, message: string)             // `except` in `_run_chain`
    | Leave(id: nat)                             // its `finally`
    | Look                                       // `failures`
    | Wait(seconds: real)

  function Init(clock: real): State {
    State({}, map[], map[], map[], map[], 0, clock)
  }

  predicate Enabled(s: State, step: Step) {
    match step
    case Fail(id, _) => id in s.chains && id !in s.told
    case Leave(id) => id in s.chains
    case Wait(seconds) => seconds >= 0.0
    case _ => true
  }

  predicate Begins(s: State, guest: string, hypervisor: string) {
    NamesOf(Chain(guest, hypervisor)) !! s.waking
  }

  /** The failures not too old to be shown. */
  function Recent(failed: map<string, Failure>, now: real): map<string, Failure> {
    map n | n in failed && now - failed[n].at <= FAILURE_SHOWN :: failed[n]
  }

  function Next(s: State, step: Step): State
    requires Enabled(s, step)
  {
    match step
    case Press(guest, hypervisor) =>
      if Begins(s, guest, hypervisor) then
        s.(waking := s.waking + {guest, hypervisor},
           failed := s.failed - {guest},
           chains := s.chains[s.pressed := Chain(guest, hypervisor)],
           pressed := s.pressed + 1)
      else s
    case Fail(id, message) =>
      var f := Failure(s.clock, message);
      s.(failed := s.failed[s.chains[id].guest := f], told := s.told[id := f])
    case Leave(id) =>
      s.(waking := s.waking - NamesOf(s.chains[id]),
         chains := s.chains - {id},
         told := s.told - {id},
         left := s.left[id := (s.chains[id], if id in s.told then Some(s.told[id]) else None)])
    case Look => s.(failed := Recent(s.failed, s.clock))
    case Wait(seconds) => s.(clock := s.clock + seconds)
  }

  function Exec(s: State, steps: seq<Step>): Option<State>
    decreases |steps|
  {
    if steps == [] then Some(s)
    else if Enabled(s, steps[0]) then Exec(Next(s, steps[0]), steps[1..])
    else None
  }

  /** The message `f` about `guest` can be seen, unless it has grown too old for that. */
  predicate Shown(s: State, guest: string, f: Failure) {
    (guest in s.failed && s.failed[guest] == f) || s.clock - f.at > FAILURE_SHOWN
  }

  /** A later wake of the guest, under way or ended. */
  ghost predicate WokenAgain(s: State, guest: string, id: nat) {
    || (exists later :: later in s.chains && later > id && s.chains[later].guest == guest)
    || (exists later :: later in s.left && later > id && s.left[later].0.guest == guest)
  }

  ghost predicate Apart(s: State) {
    && s.waking == AllNames(s.chains) && PairwiseDisjoint(s.chains)
    && s.told.Keys <= s.chains.Keys
    && (forall id | id in s.chains :: id < s.pressed)
    && (forall id | id in s.left :: id < s.pressed && id !in s.chains)
    && (forall id, other | id in s.left && other in s.chains && s.chains[other].guest == s.left[id].0.guest ::
         other > id)
  }

  ghost predicate ToldShown(s: State) {
    forall id | id in s.told && id in s.chains :: Shown(s, s.chains[id].guest, s.told[id])
  }

  ghost predicate LeftShown(s: State) {
    forall id | id in s.left && s.left[id].1.Some? ::
      Shown(s, s.left[id].0.guest, s.left[id].1.value) || WokenAgain(s, s.left[id].0.guest, id)
  }

  /** Chain `id`, under way or ended, woke `guest` and failed with `f`. */
  ghost predicate Tells(s: State, id: nat, guest: string, f: Failure) {
    || (id in s.told && id in s.chains && s.chains[id].guest == guest && s.told[id] == f)
    || (id in s.left && s.left[id].0.guest == guest && s.left[id].1 == Some(f))
  }

  /** The last wake of the guest, and it failed with `f`. */
  ghost predicate LastFailed(s: State, guest: string, f: Failure) {
    exists id :: Tells(s, id, guest, f) && !WokenAgain(s, guest, id)
  }

  ghost predicate OnlyTheLast(s: State) {
    forall n | n in s.failed :: LastFailed(s, n, s.failed[n])
  }

  ghost predicate Inv(s: State) {
    Apart(s) && ToldShown(s) && LeftShown(s) && OnlyTheLast(s)
  }

  lemma ApartKept(s: State, step: Step)
    requires Apart(s) && Enabled(s, step)
    ensures Apart(Next(s, step))
  {
    match step
    case Press(guest, hypervisor) =>
      if Begins(s, guest, hypervisor) {
        JoiningKeepsApart(s.chains, s.pressed, Chain(guest, hypervisor));
      }
    case Leave(id) =>
      LeavingClearsOnlyItsOwn(s.chains, id);
      NobodySharesAGuest(s, id);
    case _ =>
  }

  lemma NobodySharesAGuest(s: State, id: nat)
    requires Apart(s) && id in s.chains
    ensures forall other | other in s.chains && other != id :: s.chains[other].guest !in NamesOf(s.chains[id])
  {
    forall other | other in s.chains && other != id
      ensures s.chains[other].guest !in NamesOf(s.chains[id])
    {
      assert s.chains[other].guest in NamesOf(s.chains[other]);
    }
  }

  /** While a chain is in flight nobody but its own thread touches its message: no press clears it, no
      other thread writes it, and only age takes it away. */
  lemma ToldKept(s: State, step: Step)
    requires Inv(s) && Enabled(s, step)
    ensures ToldShown(Next(s, step))
  {
    match step
    case Press(guest, hypervisor) =>
      forall id | id in s.told && id in s.chains && Begins(s, guest, hypervisor)
        ensures s.chains[id].guest != guest
      {
        Within(s.chains, id);
      }
    case Fail(id, _) => NobodySharesAGuest(s, id);
    case _ =>
  }

  lemma WokenStays(s: State, step: Step, guest: string, id: nat)
    requires Apart(s) && Enabled(s, step) && WokenAgain(s, guest, id)
    ensures WokenAgain(Next(s, step), guest, id)
  {
    var t := Next(s, step);
    if later :| later in s.chains && later > id && s.chains[later].guest == guest {
      if step == Leave(later) {
        assert later in t.left && t.left[later].0.guest == guest;
      } else {
        assert later in t.chains && t.chains[later] == s.chains[later];
      }
    } else {
      var later :| later in s.left && later > id && s.left[later].0.guest == guest;
      assert later in t.left && t.left[later] == s.left[later];
    }
  }

  lemma LeftKept(s: State, step: Step)
    requires Inv(s) && Enabled(s, step)
    ensures LeftShown(Next(s, step))
  {
    var t := Next(s, step);
    forall id | id in t.left && t.left[id].1.Some?
      ensures Shown(t, t.left[id].0.guest, t.left[id].1.value) || WokenAgain(t, t.left[id].0.guest, id)
    {
      if id in s.left {
        OneLeftKept(s, step, id);
      } else {
        assert step == Leave(id) && Shown(s, s.chains[id].guest, s.told[id]);
      }
    }
  }

  lemma OneLeftKept(s: State, step: Step, id: nat)
    requires Inv(s) && Enabled(s, step) && id in s.left && s.left[id].1.Some?
    ensures id in Next(s, step).left && Next(s, step).left[id] == s.left[id]
    ensures var t, guest := Next(s, step), s.left[id].0.guest;
            Shown(t, guest, s.left[id].1.value) || WokenAgain(t, guest, id)
  {
    var t, guest := Next(s, step), s.left[id].0.guest;
    if step.Fail? && s.chains[step.id].guest == guest {
      assert step.id in s.chains && step.id > id;
    }
    if WokenAgain(s, guest, id) {
      WokenStays(s, step, guest, id);
    } else if step.Press? && step.guest == guest && Begins(s, step.guest, step.hypervisor) {
      assert s.pressed in t.chains && t.chains[s.pressed].guest == guest;
    }
  }

  lemma StillTells(s: State, step: Step, id: nat, guest: string, f: Failure)
    requires Apart(s) && Enabled(s, step) && Tells(s, id, guest, f)
    requires step.Fail? && step.id in s.chains ==> s.chains[step.id].guest != guest
    ensures Tells(Next(s, step), id, guest, f)
  {
  }

  /** Only a press of its own button wakes a guest again. */
  lemma NotWokenAgain(s: State, step: Step, id: nat, guest: string)
    requires Apart(s) && Enabled(s, step) && !WokenAgain(s, guest, id)
    requires step.Press? && Begins(s, step.guest, step.hypervisor) ==> step.guest != guest
    ensures !WokenAgain(Next(s, step), guest, id)
  {
    var t := Next(s, step);
    forall later | later in t.left && later > id
      ensures t.left[later].0.guest != guest
    {
      if later !in s.left { assert step == Leave(later); }
    }
  }

  /** A chain in flight is the last of its guest's. */
  lemma InFlightIsTheLast(s: State, id: nat)
    requires Apart(s) && id in s.chains
    ensures !WokenAgain(s, s.chains[id].guest, id)
  {
    NobodySharesAGuest(s, id);
  }

  lemma LastKept(s: State, step: Step)
    requires Inv(s) && Enabled(s, step)
    ensures OnlyTheLast(Next(s, step))
  {
    var t := Next(s, step);
    forall n | n in t.failed
      ensures LastFailed(t, n, t.failed[n])
    {
      if step.Fail? && n == s.chains[step.id].guest {
        InFlightIsTheLast(s, step.id);
        assert Tells(t, step.id, n, t.failed[n]) && !WokenAgain(t, n, step.id);
      } else {
        var id :| Tells(s, id, n, s.failed[n]) && !WokenAgain(s, n, id);
        StillTells(s, step, id, n, s.failed[n]);
        NotWokenAgain(s, step, id, n);
      }
    }
  }

  lemma StepKeepsInv(s: State, step: Step)
    requires Inv(s) && Enabled(s, step)
    ensures Inv(Next(s, step))
  {
    ApartKept(s, step);
    ToldKept(s, step);
    LeftKept(s, step);
    LastKept(s, step);
  }

  /** Once the old ones are dropped, a guest has a message exactly if its last wake failed, no more than ten
      minutes ago, and it is that wake's. */
  lemma ShownIffLastFailed(s: State, guest: string, f: Failure)
    requires Inv(s)
    ensures var t := Next(s, Look);
            guest in t.failed && t.failed[guest] == f <==> LastFailed(s, guest, f) && s.clock - f.at <= 600.0
  {
    if LastFailed(s, guest, f) {
      var id :| Tells(s, id, guest, f) && !WokenAgain(s, guest, id);
      if id in s.told && id in s.chains && s.chains[id].guest == guest && s.told[id] == f {
        assert Shown(s, guest, f);
      } else {
        assert Shown(s, s.left[id].0.guest, s.left[id].1.value);
      }
    }
  }

  /** Whatever is pressed, fails, ends or is looked at, in any order, keeps the invariant. */
  lemma {:induction false} RunKeepsInv(s: State, steps: seq<Step>)
    requires Inv(s) && Exec(s, steps).Some?
    ensures Inv(Exec(s, steps).value)
    decreases |steps|
  {
    if steps != [] {
      StepKeepsInv(s, steps[0]);
      RunKeepsInv(Next(s, steps[0]), steps[1..]);
    }
  }

  /** In every interleaving: the chains in flight are disjoint and `waking` is exactly their names; a
      chain that has ended holds none of them; and the message of one that failed can still be seen,
      unless it is too old or its guest has been woken again since; and no other message can. */
  lemma EveryInterleaving(clock: real, steps: seq<Step>, id: nat)
    requires Exec(Init(clock), steps).Some?
    ensures var s := Exec(Init(clock), steps).value;
            && s.waking == AllNames(s.chains) && PairwiseDisjoint(s.chains)
            && (id in s.left ==> id !in s.chains)
            && (id in s.told ==> id in s.chains && Shown(s, s.chains[id].guest, s.told[id]))
            && (id in s.left && s.left[id].1.Some? ==>
                  Shown(s, s.left[id].0.guest, s.left[id].1.value) || WokenAgain(s, s.left[id].0.guest, id))
            && (forall n | n in s.failed :: LastFailed(s, n, s.failed[n]))
  {
    RunKeepsInv(Init(clock), steps);
  }

  /** The steps of one thread. */
  function ThreadSteps(id: nat, error: Option<string>): seq<Step> {
    (if error.Some? then [Fail(id, error.value)] else []) + [Leave(id)]
  }

  lemma {:induction false} LeftStays(s: State, steps: seq<Step>, id: nat)
    requires Inv(s) && Exec(s, steps).Some? && id in s.left
    ensures var t := Exec(s, steps).value; id in t.left && t.left[id] == s.left[id]
    decreases |steps|
  {
    if steps != [] {
      StepKeepsInv(s, steps[0]);
      LeftStays(Next(s, steps[0]), steps[1..], id);
    }
  }

  /** A thread that has recorded its failure, whatever all others do from then on: it is still in flight
      or has left with that failure, and the message can be seen, unless it is too old, or the thread
      has ended and its guest has been woken again. */
  lemma {:induction false} FailedChainTells(s: State, steps: seq<Step>, id: nat)
    requires Inv(s) && Exec(s, steps).Some? && id in s.told && id in s.chains
    ensures var t, guest, f := Exec(s, steps).value, s.chains[id].guest, s.told[id];
            if id in t.chains then id in t.told && t.told[id] == f && Shown(t, guest, f)
            else id in t.left && t.left[id].1 == Some(f) && (Shown(t, guest, f) || WokenAgain(t, guest, id))
    decreases |steps|
  {
    if steps != [] {
      var u := Next(s, steps[0]);
      StepKeepsInv(s, steps[0]);
      if steps[0] == Leave(id) {
        LeftStays(u, steps[1..], id);
        RunKeepsInv(u, steps[1..]);
      } else {
        FailedChainTells(u, steps[1..], id);
      }
    }
  }

  /** What is shown of each guest: the message of its last wake, if that failed no more than ten minutes
      ago, and nothing else. */
  ghost predicate AreTheLast(s: State, messages: map<string, string>) {
    && (forall n, f :: LastFailed(s, n, f) && s.clock - f.at <= 600.0 ==> n in messages && messages[n] == f.message)
    && (forall n | n in messages ::
          exists f :: LastFailed(s, n, f) && s.clock - f.at <= 600.0 && messages[n] == f.message)
    && (forall id | id in s.told && id in s.chains && s.clock - s.told[id].at <= 600.0 ::
          s.chains[id].guest in messages && messages[s.chains[id].guest] == s.told[id].message)
  }

  ghost function LastMessages(s: State): iset<map<string, string>> {
    iset messages | AreTheLast(s, messages)
  }

  function MessagesOf(failed: map<string, Failure>): map<string, string> {
    map n | n in failed :: failed[n].message
  }

  lemma ToldIsTheLast(s: State, id: nat)
    requires Apart(s) && id in s.told && id in s.chains
    ensures LastFailed(s, s.chains[id].guest, s.told[id])
  {
    InFlightIsTheLast(s, id);
    assert Tells(s, id, s.chains[id].guest, s.told[id]);
  }

  lemma MessagesAreTheLast(s: State, failed: map<string, Failure>)
    requires Apart(s)
    requires forall n, f :: LastFailed(s, n, f) && s.clock - f.at <= 600.0 <==> n in failed && failed[n] == f
    ensures AreTheLast(s, MessagesOf(failed))
  {
    forall id | id in s.told && id in s.chains && s.clock - s.told[id].at <= 600.0
      ensures s.chains[id].guest in failed && failed[s.chains[id].guest] == s.told[id]
    {
      ToldIsTheLast(s, id);
    }
    forall n | n in MessagesOf(failed)
      ensures exists f :: LastFailed(s, n, f) && s.clock - f.at <= 600.0 && MessagesOf(failed)[n] == f.message
    {
      assert LastFailed(s, n, failed[n]);
    }
  }

  lemma RecentAreTheLast(s: State)
    requires Inv(s)
    ensures MessagesOf(Next(s, Look).failed) in LastMessages(s)
  {
    var failed := Next(s, Look).failed;
    forall n, f
      ensures LastFailed(s, n, f) && s.clock - f.at <= 600.0 <==> n in failed && failed[n] == f
    {
      ShownIffLastFailed(s, n, f);
    }
    MessagesAreTheLast(s, failed);
  }

  // -- the code --------------------------------------------------------------

  /** The module's table and set, each method one step under the lock. */
  class Board {
    var waking: set<string>
    var failed: map<string, Failure>
    ghost var s: State

    ghost predicate Valid()
      reads this
    {
      Inv(s) && waking == s.waking && failed == s.failed
    }

    constructor (ghost clock: real)
      ensures Valid() && s == Init(clock)
    {
      waking, failed := {}, map[];
      s := Init(clock);
    }

    /** The locked part of `wake` for a guest of a sleeping hypervisor: refused when one of the two
        machines is already being woken, else the thread is started. */
    method Press(guest: string, hypervisor: string) returns (begun: bool)
      requires Valid()
      modifies this
      ensures Valid() && s == Next(old(s), Step.Press(guest, hypervisor))
      ensures begun <==> Begins(old(s), guest, hypervisor)
    {
      StepKeepsInv(s, Step.Press(guest, hypervisor));
      var names := {guest, hypervisor};
      begun := names * waking == {};
      if begun {
        waking := waking + names;
        failed := failed - {guest};
      }
      s := Next(s, Step.Press(guest, hypervisor));
    }

    /** `except` in `_run_chain`. */
    method RecordFailure(ghost id: nat, c: Chain, message: string, now: real)
      requires Valid() && Enabled(s, Fail(id, message)) && s.chains[id] == c && s.clock == now
      modifies this
      ensures Valid() && s == Next(old(s), Fail(id, message))
    {
      StepKeepsInv(s, Fail(id, message));
      failed := failed[c.guest := Failure(now, message)];
      s := Next(s, Fail(id, message));
    }

    /** `finally` in `_run_chain`. */
    method End(ghost id: nat, c: Chain)
      requires Valid() && Enabled(s, Leave(id)) && s.chains[id] == c
      modifies this
      ensures Valid() && s == Next(old(s), Leave(id))
    {
      StepKeepsInv(s, Leave(id));
      waking := waking - {c.guest, c.hypervisor};
      s := Next(s, Leave(id));
    }

    /** `failures`: what is shown, after the old ones are dropped. */
    method Failures(now: real) returns (messages: map<string, string>)
      requires Valid() && s.clock == now
      modifies this
      ensures Valid() && s == Next(old(s), Look)
      ensures messages in LastMessages(old(s))
    {
      RecentAreTheLast(s);
      DropOld(now);
      messages := MessagesOf(failed);
    }

    /** Those older than ten minutes. */
    method DropOld(now: real)
      requires Valid() && s.clock == now
      modifies this
      ensures Valid() && s == Next(old(s), Look) && failed == s.failed
    {
      failed := map n | n in failed && !(now - failed[n].at > FAILURE_SHOWN) :: failed[n];
      assert failed == Recent(s.failed, now);
      StepKeepsInv(s, Look);
      s := Next(s, Look);
    }

    /** `_run_chain`, once the wake itself has ended: well, or with an exception. Other threads may come
        between its two steps; `FailedChainTells` says what they cannot do. */
    method RunChain(ghost id: nat, c: Chain, error: Option<string>, now: real)
      requires Valid() && id in s.chains && id !in s.told && s.chains[id] == c && s.clock == now
      modifies this
      ensures Valid() && Exec(old(s), ThreadSteps(id, error)) == Some(s)
      ensures id in s.left && id !in s.chains && s.waking == old(s).waking - NamesOf(c)
      ensures s.left[id].1.Some? <==> error.Some?
      ensures error.Some? ==> c.guest in failed && failed[c.guest] == Failure(now, error.value)
    {
      ghost var before := s;
      if error.Some? {
        RecordFailure(id, c, error.value, now);
      }
      ghost var told := s;
      End(id, c);
      assert Exec(told, [Leave(id)]) == Some(s);
      assert error.Some? ==> [Fail(id, error.value), Leave(id)][1..] == [Leave(id)];
    }
  }
}
