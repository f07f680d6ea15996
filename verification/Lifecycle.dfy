/** A job's life across crashes: the state file and the archive survive, the locks, the stop flags
    and the worker threads do not. Every call that writes the state file or the archive is one
    atomic step, and the process may die between any two steps, at boot as much as in a run. */
module Lifecycle {
  import opened Fleet
  import opened Updater
  import opened UpdateMonitor

  datatype PerJob<T> = PerJob(sweep: T, update: T) {
    function Of(j: Job): T { if j.LogSweep? then sweep else update }
    function With(j: Job, v: T): PerJob<T> { if j.LogSweep? then this.(sweep := v) else this.(update := v) }
  }

  datatype Status = NeverRun | Running | Ok | Failed

  /** A job's entry in `state.json`. `run` numbers the runs ever started and exists only to talk
      about them: the file itself knows a run by its start time. */
  datatype Record = Record(
    status: Status, startedAt: int, lastRun: Option<int>, handoff: Option<Handoff>, run: nat)

  /** An archived report. */
  datatype Entry = Entry(job: Job, run: nat, when: int, ok: bool, rows: seq<Row>)

  /** Who holds a job's lock, and how far it has come. */
  datatype Hold =
    | Free
    | Working                        // a worker thread is in the job
    | Finishing(handoff: Handoff)    // a restarted process waits for the own host's answer
    | Closing(entry: Entry, clears: bool)  // `mark_finished` written, the archive not yet
    | Closed(clears: bool)           // both written, the lock still held; `clears` the stop flag

  datatype Process =
    | Down
    | Booting(todo: seq<Job>, toArchive: Option<Entry>, handedOff: Option<Handoff>)
    | Up(holds: PerJob<Hold>, stopping: set<Job>)

  /** How a run ended. `HostRemoved`: the own host left the config before it reported. */
  datatype Outcome = Raised | Returned(rows: seq<Row>) | Answered(answer: HostAnswer) | HostRemoved

  /** `records` and `archive` are on disk, `process` is in memory. The rest is history, kept only
      to state what happened: runs closed so far, runs whose process died between closing and
      archiving them, what each run handed off, and how its own host's wait ended. */
  datatype State = State(
    records: PerJob<Record>,
    archive: seq<Entry>,
    process: Process,
    started: nat,
    closed: seq<nat>,
    torn: set<nat>,
    saved: map<nat, Handoff>,
    outcome: map<nat, Outcome>)

  const BLANK := Record(NeverRun, 0, None, None, 0)

  const INIT := State(PerJob(BLANK, BLANK), [], Down, 0, [], {}, map[], map[])

  datatype Step =
    | Boot
    | Reconcile                      // one turn of the loop in `_reconcile_interrupted`
    | ArchiveInterrupted
    | Ready
    | Start(job: Job, now: int)
    | HandOff(handoff: Handoff)
    | Finish(job: Job, now: int, outcome: Outcome)
    | Archive(job: Job)
    | Release(job: Job)
    | RequestStop(job: Job)
    | Crash

  const RESTARTED := "timar restarted during it"

  /** The own host's row, as the process that waited for it writes it. */
  function LastRow(h: Handoff, o: Outcome, note: string): Row
    requires o.Answered? || o.HostRemoved?
  {
    match o
    case Answered(answer) => OwnHostRow(h.host, answer, note)
    case HostRemoved => Updater.Failed(Machine(h.host), true, RemovedMeanwhile)
  }

  /** The rows a run reports. A worker that handed off appends the own host's row to the rows it
      saved (`Updater.Run.RunUpdates`); a restarted process appends it to the rows it found. */
  function RowsOf(hold: Hold, saved: Option<Handoff>, o: Outcome): seq<Row> {
    match o
    case Raised => []
    case Returned(rows) => rows
    case _ =>
      if hold.Finishing? then hold.handoff.rows + [LastRow(hold.handoff, o, RESTARTED)]
      else if saved.Some? then saved.value.rows + [LastRow(saved.value, o, "")]
      else []
  }

  function SavedBy(s: State, run: nat): Option<Handoff> {
    if run in s.saved then Some(s.saved[run]) else None
  }

  /** Can `job`'s run end this way? A worker that has handed off still waits for the answer in
      the same call, so it returns with it; a process that found a hand-off has only the answer. */
  predicate CanEnd(s: State, job: Job, o: Outcome)
    requires s.process.Up?
  {
    var hold := s.process.holds.Of(job);
    var handed := job.Update? && s.records.update.run in s.saved;
    match o
    case Raised => hold.Working? || hold.Finishing?
    case Returned(_) => hold.Working? && !handed
    case Answered(_) => (hold.Working? && handed) || hold.Finishing?
    case HostRemoved => hold.Finishing?
  }

  predicate Enabled(s: State, step: Step) {
    match step
    case Boot => s.process.Down?
    case Reconcile => s.process.Booting? && s.process.todo != [] && s.process.toArchive.None?
    case ArchiveInterrupted => s.process.Booting? && s.process.toArchive.Some?
    case Ready => s.process.Booting? && s.process.todo == [] && s.process.toArchive.None?
    case Start(j, _) => s.process.Up? && s.process.holds.Of(j).Free?
    case HandOff(_) => s.process.Up? && s.process.holds.update.Working? && s.records.update.run !in s.saved
    case Finish(j, _, o) => s.process.Up? && CanEnd(s, j, o)
    case Archive(j) => s.process.Up? && s.process.holds.Of(j).Closing?
    case Release(j) => s.process.Up? && s.process.holds.Of(j).Closed?
    case RequestStop(j) => s.process.Up? && !s.process.holds.Of(j).Free?
    case Crash => !s.process.Down?
  }

  /** The entry that is closed on disk but not archived yet, if any. */
  function Unarchived(p: Process): set<nat> {
    match p
    case Down => {}
    case Booting(_, toArchive, _) => if toArchive.Some? then {toArchive.value.run} else {}
    case Up(holds, _) =>
      (if holds.sweep.Closing? then {holds.sweep.entry.run} else {}) +
      (if holds.update.Closing? then {holds.update.entry.run} else {})
  }

  function Next(s: State, step: Step): State
    requires Enabled(s, step)
  {
    match step
    case Boot => s.(process := Booting([LogSweep, Update], None, None))
    case Reconcile =>
      var p := s.process;
      var j := p.todo[0];
      var r := s.records.Of(j);
      if !r.status.Running? then s.(process := p.(todo := p.todo[1..]))
      else if j.Update? && r.handoff.Some? then s.(process := p.(todo := p.todo[1..], handedOff := r.handoff))
      else s.(records := s.records.With(j, r.(status := Failed, lastRun := Some(r.startedAt))),
              closed := s.closed + [r.run],
              outcome := s.outcome[r.run := Outcome.Raised],
              process := p.(todo := p.todo[1..], toArchive := Some(Entry(j, r.run, r.startedAt, false, []))))
    case ArchiveInterrupted =>
      s.(archive := s.archive + [s.process.toArchive.value], process := s.process.(toArchive := None))
    case Ready =>
      var h := s.process.handedOff;
      s.(process := Up(PerJob(Free, if h.Some? then Finishing(h.value) else Free), {}))
    case Start(j, now) =>
      var r := s.records.Of(j);
      s.(records := s.records.With(j, Record(Status.Running, now, r.lastRun, None, s.started)),
         started := s.started + 1,
         process := s.process.(holds := s.process.holds.With(j, Working), stopping := s.process.stopping - {j}))
    case HandOff(h) =>
      s.(records := s.records.With(Update, s.records.update.(handoff := Some(h))),
         saved := s.saved[s.records.update.run := h])
    case Finish(j, now, o) =>
      var r := s.records.Of(j);
      var rows := RowsOf(s.process.holds.Of(j), SavedBy(s, r.run), o);
      var closed := r.(status := if o.Raised? then Failed else Ok, lastRun := Some(now), handoff := None);
      var e := Entry(j, r.run, now, !o.Raised?, rows);
      s.(records := s.records.With(j, closed),
         closed := s.closed + [r.run],
         outcome := s.outcome[r.run := o],
         process := s.process.(holds := s.process.holds.With(j, Closing(e, s.process.holds.Of(j).Working?))))
    case Archive(j) =>
      s.(archive := s.archive + [s.process.holds.Of(j).entry],
         process := s.process.(holds := s.process.holds.With(j, Closed(s.process.holds.Of(j).clears))))
    case Release(j) =>
      var clears := s.process.holds.Of(j).clears;
      s.(process := s.process.(holds := s.process.holds.With(j, Free),
                               stopping := if clears then s.process.stopping - {j} else s.process.stopping))
    case RequestStop(j) => s.(process := s.process.(stopping := s.process.stopping + {j}))
    case Crash => s.(process := Down, torn := s.torn + Unarchived(s.process))
  }

  function Exec(s: State, steps: seq<Step>): Option<State>
    decreases |steps|
  {
    if steps == [] then Some(s)
    else if Enabled(s, steps[0]) then Exec(Next(s, steps[0]), steps[1..])
    else None
  }

  // -- the invariant ---------------------------------------------------------

  /** A job's record and its lock tell the same story. */
  predicate Agree(s: State, j: Job) {
    var r := s.records.Of(j);
    && (r.handoff.Some? ==> j.Update? && r.status.Running?)
    && (r.status.Running? ==> r.run < s.started)
    && (j.Update? && r.status.Running? ==> r.handoff == SavedBy(s, r.run))
    && (s.process.Up? ==>
          var hold := s.process.holds.Of(j);
          && (r.status.Running? <==> hold.Working? || hold.Finishing?)
          && (hold.Finishing? ==> j.Update? && r.handoff == Some(hold.handoff))
          && (hold.Closing? ==> hold.entry.job == j))
    && (s.process.Booting? ==>
          && (j !in s.process.todo && r.status.Running? ==> r.handoff.Some?)
          && (j.Update? ==> s.process.handedOff == if j in s.process.todo then None else r.handoff))
  }

  predicate Open(s: State, run: nat) {
    || (s.records.sweep.status.Running? && s.records.sweep.run == run)
    || (s.records.update.status.Running? && s.records.update.run == run)
  }

  function RunsOf(entries: seq<Entry>): (runs: seq<nat>)
    ensures |runs| == |entries|
    ensures forall i | 0 <= i < |entries| :: runs[i] == entries[i].run
  {
    seq(|entries|, i requires 0 <= i < |entries| => entries[i].run)
  }

  ghost predicate Distinct(xs: seq<nat>) {
    forall i, j | 0 <= i < j < |xs| :: xs[i] != xs[j]
  }

  /** Every closed run is archived, about to be, or torn, and only one of them. */
  ghost predicate Balanced(closed: seq<nat>, archived: seq<nat>, pending: set<nat>, torn: set<nat>) {
    && Distinct(closed) && Distinct(archived)
    && (forall run | run in closed :: run in archived || run in torn || run in pending)
    && (forall run | run in archived :: run in closed && run !in torn && run !in pending)
    && (forall run | run in torn :: run in closed && run !in pending)
    && (forall run | run in pending :: run in closed)
  }

  /** Started runs are open or closed, and the closed ones are accounted for. */
  ghost predicate Accounted(s: State) {
    && (forall run: nat :: run in s.closed <==> run < s.started && !Open(s, run))
    && Balanced(s.closed, RunsOf(s.archive), Unarchived(s.process), s.torn)
  }

  /** An entry of a run that handed off carries the saved rows and one more, in that order. */
  predicate Faithful(s: State, e: Entry) {
    && e.run in s.outcome
    && (e.ok <==> !s.outcome[e.run].Raised?)
    && (e.run in s.saved && e.ok ==>
          && !s.outcome[e.run].Returned?
          && (e.rows == s.saved[e.run].rows + [LastRow(s.saved[e.run], s.outcome[e.run], "")] ||
              e.rows == s.saved[e.run].rows + [LastRow(s.saved[e.run], s.outcome[e.run], RESTARTED)]))
  }

  ghost predicate AllFaithful(s: State) {
    && (forall e | e in s.archive :: Faithful(s, e))
    && (forall run | run in s.outcome :: run in s.closed)
    && (forall run | run in s.saved :: run < s.started)
    && (match s.process
        case Down => true
        case Booting(_, toArchive, _) => toArchive.Some? ==> Faithful(s, toArchive.value)
        case Up(holds, _) =>
          && (holds.sweep.Closing? ==> Faithful(s, holds.sweep.entry))
          && (holds.update.Closing? ==> Faithful(s, holds.update.entry)))
  }

  predicate Separate(s: State) {
    && (s.records.sweep.status.Running? && s.records.update.status.Running? ==>
         s.records.sweep.run != s.records.update.run)
    && (s.process.Booting? ==>
         s.process.todo == [LogSweep, Update] || s.process.todo == [Update] || s.process.todo == [])
    && (s.process.Up? && s.process.holds.sweep.Closing? && s.process.holds.update.Closing? ==>
          s.process.holds.sweep.entry.run != s.process.holds.update.entry.run)
    && (s.records.sweep.status.Running? ==> s.records.sweep.run !in s.saved)
  }

  ghost predicate Inv(s: State) {
    Agree(s, LogSweep) && Agree(s, Update) && Separate(s) && Accounted(s) && AllFaithful(s)
  }

  lemma InitInv()
    ensures Inv(INIT)
  {
  }

  lemma AgreeKept(s: State, step: Step)
    requires Inv(s) && Enabled(s, step)
    ensures Agree(Next(s, step), LogSweep) && Agree(Next(s, step), Update)
  {
  }

  lemma SeparateKept(s: State, step: Step)
    requires Inv(s) && Enabled(s, step)
    ensures Separate(Next(s, step))
  {
  }

  lemma DistinctSnoc(xs: seq<nat>, x: nat)
    requires Distinct(xs) && x !in xs
    ensures Distinct(xs + [x])
  {
  }

  lemma RunsOfSnoc(entries: seq<Entry>, e: Entry)
    ensures RunsOf(entries + [e]) == RunsOf(entries) + [e.run]
  {
  }

  lemma BalancedClose(closed: seq<nat>, archived: seq<nat>, pending: set<nat>, torn: set<nat>, run: nat)
    requires Balanced(closed, archived, pending, torn) && run !in closed
    ensures Balanced(closed + [run], archived, pending + {run}, torn)
  {
  }

  lemma BalancedArchive(closed: seq<nat>, archived: seq<nat>, pending: set<nat>, torn: set<nat>, run: nat)
    requires Balanced(closed, archived, pending, torn) && run in pending
    ensures Balanced(closed, archived + [run], pending - {run}, torn)
  {
    DistinctSnoc(archived, run);
  }

  lemma OpenKept(s: State, step: Step)
    requires Inv(s) && Enabled(s, step)
    ensures forall run: nat :: run in Next(s, step).closed <==> run < Next(s, step).started && !Open(Next(s, step), run)
  {
  }

  lemma ClosingKept(s: State, step: Step)
    requires Inv(s) && Enabled(s, step) && (step.Reconcile? || step.Finish?)
    ensures Accounted(Next(s, step))
  {
    OpenKept(s, step);
    var t := Next(s, step);
    var run := s.records.Of(if step.Finish? then step.job else s.process.todo[0]).run;
    if t.closed != s.closed {
      BalancedClose(s.closed, RunsOf(s.archive), Unarchived(s.process), s.torn, run);
      assert Unarchived(t.process) == Unarchived(s.process) + {run};
    }
  }

  lemma ArchivingKept(s: State, step: Step)
    requires Inv(s) && Enabled(s, step) && (step.ArchiveInterrupted? || step.Archive?)
    ensures Accounted(Next(s, step))
  {
    OpenKept(s, step);
    var t := Next(s, step);
    var e := if step.Archive? then s.process.holds.Of(step.job).entry else s.process.toArchive.value;
    RunsOfSnoc(s.archive, e);
    BalancedArchive(s.closed, RunsOf(s.archive), Unarchived(s.process), s.torn, e.run);
    assert Unarchived(t.process) == Unarchived(s.process) - {e.run};
  }

  lemma AccountedKept(s: State, step: Step)
    requires Inv(s) && Enabled(s, step)
    ensures Accounted(Next(s, step))
  {
    match step
    case Reconcile => ClosingKept(s, step);
    case Finish(_, _, _) => ClosingKept(s, step);
    case ArchiveInterrupted => ArchivingKept(s, step);
    case Archive(_) => ArchivingKept(s, step);
    case Crash => OpenKept(s, step);
    case _ =>
      OpenKept(s, step);
      assert Unarchived(Next(s, step).process) == Unarchived(s.process);
  }

  /** What an entry says depends only on its own run's history. */
  lemma FaithfulStays(s: State, t: State, e: Entry)
    requires Faithful(s, e) && e.run in t.outcome && t.outcome[e.run] == s.outcome[e.run]
    requires e.run in s.saved <==> e.run in t.saved
    requires e.run in s.saved ==> s.saved[e.run] == t.saved[e.run]
    ensures Faithful(t, e)
  {
  }

  /** No step rewrites the history of a run that is closed. */
  lemma ClosedHistoryStays(s: State, step: Step, run: nat)
    requires Inv(s) && Enabled(s, step) && run in s.closed
    ensures run in s.outcome ==> run in Next(s, step).outcome && Next(s, step).outcome[run] == s.outcome[run]
    ensures run in s.saved <==> run in Next(s, step).saved
    ensures run in s.saved ==> s.saved[run] == Next(s, step).saved[run]
  {
  }

  lemma HistoryKept(s: State, step: Step)
    requires Inv(s) && Enabled(s, step)
    ensures forall run | run in Next(s, step).outcome :: run in Next(s, step).closed
    ensures forall run | run in Next(s, step).saved :: run < Next(s, step).started
  {
  }

  lemma FaithfulKept(s: State, step: Step)
    requires Inv(s) && Enabled(s, step)
    ensures AllFaithful(Next(s, step))
  {
    HistoryKept(s, step);
    var t := Next(s, step);
    forall e | Faithful(s, e)
      ensures Faithful(t, e)
    {
      ClosedHistoryStays(s, step, e.run);
      FaithfulStays(s, t, e);
    }
  }

  lemma StepKeepsInv(s: State, step: Step)
    requires Inv(s) && Enabled(s, step)
    ensures Inv(Next(s, step))
  {
    AgreeKept(s, step);
    SeparateKept(s, step);
    AccountedKept(s, step);
    FaithfulKept(s, step);
  }

  /** Whatever is started, stopped, handed off or killed, in any order, keeps the invariant. */
  lemma {:induction false} RunKeepsInv(s: State, steps: seq<Step>)
    requires Inv(s) && Exec(s, steps).Some?
    ensures Inv(Exec(s, steps).value)
    decreases |steps|
  {
    if steps != [] {
      StepKeepsInv(s, steps[0]);
      RunKeepsInv(Next(s, steps[0]), steps[1..]);
    }
  }

  // -- what it means for every history ---------------------------------------

  /** "Running" on the page is never a leftover: in a process that is up it means a worker or a
      pending finisher holding the job's lock, and a stored hand-off means a running update. */
  lemma RunningIsLive(steps: seq<Step>, j: Job)
    requires Exec(INIT, steps).Some?
    ensures var s := Exec(INIT, steps).value;
            && (s.process.Up? ==>
                  (s.records.Of(j).status.Running? <==>
                    s.process.holds.Of(j).Working? || s.process.holds.Of(j).Finishing?))
            && (s.records.Of(j).handoff.Some? ==> j.Update? && s.records.Of(j).status.Running?)
            && (s.process.Up? && s.process.holds.Of(j).Finishing? ==>
                  s.records.Of(j).handoff == Some(s.process.holds.Of(j).handoff))
  {
    InitInv();
    RunKeepsInv(INIT, steps);
  }

  /** How often run `run` was archived. */
  function Count(xs: seq<nat>, x: nat): nat {
    multiset(xs)[x]
  }

  lemma {:induction false} DistinctCounts(xs: seq<nat>, x: nat)
    requires Distinct(xs)
    ensures Count(xs, x) == if x in xs then 1 else 0
  {
    if xs != [] {
      assert xs == xs[..|xs| - 1] + [xs[|xs| - 1]];
      DistinctCounts(xs[..|xs| - 1], x);
    }
  }

  /** Every run ever started is closed exactly once as soon as it is no longer running, and never
      archived twice; it is archived exactly once unless the process died between the two writes
      that close it, or is between them now. */
  lemma ClosedAndArchivedOnce(steps: seq<Step>, run: nat)
    requires Exec(INIT, steps).Some? && run < Exec(INIT, steps).value.started
    ensures var s := Exec(INIT, steps).value;
            && Count(s.closed, run) == (if Open(s, run) then 0 else 1)
            && Count(RunsOf(s.archive), run) ==
                 (if Open(s, run) || run in s.torn || run in Unarchived(s.process) then 0 else 1)
  {
    InitInv();
    RunKeepsInv(INIT, steps);
    var s := Exec(INIT, steps).value;
    DistinctCounts(s.closed, run);
    DistinctCounts(RunsOf(s.archive), run);
  }

  /** Step `k` of a history is a crash that falls between the two writes that close `run`. */
  predicate CutShort(s: State, steps: seq<Step>, k: nat, run: nat)
    requires k < |steps|
  {
    steps[k].Crash? && Exec(s, steps[..k]).Some? && run in Unarchived(Exec(s, steps[..k]).value.process)
  }

  lemma {:induction false} TornByACrash(s: State, steps: seq<Step>, run: nat)
    requires Exec(s, steps).Some?
    ensures run in Exec(s, steps).value.torn <==>
            run in s.torn || exists k :: 0 <= k < |steps| && CutShort(s, steps, k, run)
    decreases |steps|
  {
    if steps != [] {
      var t, rest := Next(s, steps[0]), steps[1..];
      TornByACrash(t, rest, run);
      assert run in t.torn <==> run in s.torn || CutShort(s, steps, 0, run);
      forall k: nat | k < |rest|
        ensures CutShort(t, rest, k, run) <==> CutShort(s, steps, k + 1, run)
      {
        assert steps[..k + 1][1..] == rest[..k];
      }
      if k :| 0 < k < |steps| && CutShort(s, steps, k, run) {
        assert CutShort(t, rest, k - 1, run);
      }
    }
  }

  /** When a report is lost: a run that was started and is over is missing from the archive exactly when
      the process died between the two writes that close it, or is between them now. */
  lemma LostOnlyBetweenTheWrites(steps: seq<Step>, run: nat)
    requires Exec(INIT, steps).Some? && run < Exec(INIT, steps).value.started
    ensures var s := Exec(INIT, steps).value;
            run !in RunsOf(s.archive) <==>
              || Open(s, run) || run in Unarchived(s.process)
              || exists k :: 0 <= k < |steps| && CutShort(INIT, steps, k, run)
  {
    ClosedAndArchivedOnce(steps, run);
    TornByACrash(INIT, steps, run);
  }

  lemma {:induction false} ExecConcat(s: State, a: seq<Step>, b: seq<Step>)
    requires Exec(s, a).Some?
    ensures Exec(s, a + b) == Exec(Exec(s, a).value, b)
    decreases |a|
  {
    if a == [] {
      assert a + b == b;
    } else {
      assert (a + b)[1..] == a[1..] + b;
      ExecConcat(Next(s, a[0]), a[1..], b);
    }
  }

  lemma ExecSnoc(s: State, steps: seq<Step>, step: Step)
    requires Exec(s, steps + [step]).Some?
    ensures Exec(s, steps).Some? && Enabled(Exec(s, steps).value, step)
    ensures Exec(s, steps + [step]).value == Next(Exec(s, steps).value, step)
  {
    ExecPrefix(s, steps, [step]);
    ExecConcat(s, steps, [step]);
    assert Exec(Exec(s, steps).value, [step]).Some?;
    assert [step][1..] == [];
  }

  lemma {:induction false} ExecPrefix(s: State, a: seq<Step>, b: seq<Step>)
    requires Exec(s, a + b).Some?
    ensures Exec(s, a).Some?
    decreases |a|
  {
    if a != [] {
      assert (a + b)[1..] == a[1..] + b;
      ExecPrefix(Next(s, a[0]), a[1..], b);
    }
  }

  /** One step in the middle of a history. */
  lemma AtStep(before: seq<Step>, step: Step, after: seq<Step>)
    requires Exec(INIT, before + [step] + after).Some?
    ensures Exec(INIT, before).Some? && Enabled(Exec(INIT, before).value, step) && Inv(Exec(INIT, before).value)
    ensures Exec(INIT, before + [step] + after) == Exec(Next(Exec(INIT, before).value, step), after)
  {
    ExecPrefix(INIT, before + [step], after);
    ExecSnoc(INIT, before, step);
    ExecConcat(INIT, before + [step], after);
    InitInv();
    RunKeepsInv(INIT, before);
  }

  // -- what a run is dated to ------------------------------------------------

  /** Step `k` of the history began the run, at `when`. */
  ghost predicate BeganAt(steps: seq<Step>, k: nat, j: Job, run: nat, when: int) {
    && k < |steps| && steps[k] == Start(j, when)
    && Exec(INIT, steps[..k]).Some? && Exec(INIT, steps[..k]).value.started == run
  }

  ghost predicate Began(steps: seq<Step>, j: Job, run: nat, when: int) {
    exists k: nat :: BeganAt(steps, k, j, run, when)
  }

  lemma BeganStill(steps: seq<Step>, step: Step, j: Job, run: nat, when: int)
    requires Began(steps, j, run, when)
    ensures Began(steps + [step], j, run, when)
  {
    var k: nat :| BeganAt(steps, k, j, run, when);
    assert (steps + [step])[..k] == steps[..k];
    assert BeganAt(steps + [step], k, j, run, when);
  }

  /** The record of a running job tells when its run began. */
  ghost predicate RecordIsDated(steps: seq<Step>, r: Record, j: Job) {
    r.status.Running? ==> Began(steps, j, r.run, r.startedAt)
  }

  /** And so does the entry an interrupted one is about to get. */
  ghost predicate EntryIsDated(steps: seq<Step>, s: State) {
    s.process.Booting? && s.process.toArchive.Some? ==>
      var e := s.process.toArchive.value;
      && Began(steps, e.job, e.run, e.when) && !e.ok && e.rows == []
      && s.records.Of(e.job).lastRun == Some(e.when) && s.records.Of(e.job).status.Failed?
  }

  ghost predicate DatedToStart(steps: seq<Step>, s: State) {
    && RecordIsDated(steps, s.records.sweep, LogSweep) && RecordIsDated(steps, s.records.update, Update)
    && EntryIsDated(steps, s)
  }

  lemma StartIsDated(steps: seq<Step>, s: State, j: Job, now: int)
    requires Exec(INIT, steps) == Some(s) && Enabled(s, Start(j, now))
    ensures Began(steps + [Start(j, now)], j, s.started, now)
  {
    assert (steps + [Start(j, now)])[..|steps|] == steps;
    assert BeganAt(steps + [Start(j, now)], |steps|, j, s.started, now);
  }

  lemma RecordStaysDated(steps: seq<Step>, s: State, step: Step, j: Job)
    requires Exec(INIT, steps) == Some(s) && Enabled(s, step) && RecordIsDated(steps, s.records.Of(j), j)
    ensures RecordIsDated(steps + [step], Next(s, step).records.Of(j), j)
  {
    var r, next := s.records.Of(j), Next(s, step).records.Of(j);
    if step.Start? && step.job == j {
      StartIsDated(steps, s, j, step.now);
    } else if next.status.Running? {
      assert r.status.Running? && next.run == r.run && next.startedAt == r.startedAt;
      BeganStill(steps, step, j, r.run, r.startedAt);
    }
  }

  lemma EntryStaysDated(steps: seq<Step>, s: State, step: Step)
    requires Enabled(s, step) && DatedToStart(steps, s)
    ensures EntryIsDated(steps + [step], Next(s, step))
  {
    var t := Next(s, step);
    if t.process.Booting? && t.process.toArchive.Some? {
      assert step.Reconcile?;
      var e := t.process.toArchive.value;
      assert RecordIsDated(steps, s.records.Of(e.job), e.job);
      BeganStill(steps, step, e.job, e.run, e.when);
    }
  }

  lemma DatingKept(steps: seq<Step>, s: State, step: Step)
    requires Exec(INIT, steps) == Some(s) && Enabled(s, step) && DatedToStart(steps, s)
    ensures DatedToStart(steps + [step], Next(s, step))
  {
    RecordStaysDated(steps, s, step, LogSweep);
    RecordStaysDated(steps, s, step, Update);
    EntryStaysDated(steps, s, step);
  }

  lemma {:induction false} AllDatedToStart(steps: seq<Step>)
    requires Exec(INIT, steps).Some?
    ensures DatedToStart(steps, Exec(INIT, steps).value)
  {
    if steps != [] {
      var front, last := steps[..|steps| - 1], steps[|steps| - 1];
      assert steps == front + [last];
      ExecSnoc(INIT, front, last);
      AllDatedToStart(front);
      DatingKept(front, Exec(INIT, front).value, last);
    }
  }

  lemma {:induction false} NumbersGrow(s: State, steps: seq<Step>)
    requires Exec(s, steps).Some?
    ensures s.started <= Exec(s, steps).value.started
    decreases |steps|
  {
    if steps != [] {
      NumbersGrow(Next(s, steps[0]), steps[1..]);
    }
  }

  /** A run is begun by one step of a history. */
  lemma BegunOnce(steps: seq<Step>, k: nat, l: nat, j: Job, i: Job, run: nat, when: int, other: int)
    requires Exec(INIT, steps).Some? && BeganAt(steps, k, j, run, when) && BeganAt(steps, l, i, run, other)
    ensures k == l
  {
    if k != l {
      var a, b := if k < l then k else l, if k < l then l else k;
      var middle := steps[a + 1..b];
      assert steps[..b] == (steps[..a] + [steps[a]]) + middle;
      ExecPrefix(INIT, steps[..a] + [steps[a]], middle);
      ExecSnoc(INIT, steps[..a], steps[a]);
      ExecConcat(INIT, steps[..a] + [steps[a]], middle);
      NumbersGrow(Exec(INIT, steps[..a] + [steps[a]]).value, middle);
    }
  }

  /** What the next boot archives for a run that died is a failure without rows, dated to the instant at
      which that run was started; and that instant is the job's last run. */
  lemma InterruptedIsDatedToItsStart(steps: seq<Step>, a: nat) returns (e: Entry, k: nat)
    requires Exec(INIT, steps).Some? && a < |steps| && steps[a].ArchiveInterrupted?
    ensures Exec(INIT, steps[..a]).Some? && Exec(INIT, steps[..a + 1]).Some?
    ensures Exec(INIT, steps[..a + 1]).value.archive == Exec(INIT, steps[..a]).value.archive + [e]
    ensures !e.ok && e.rows == []
    ensures k < a && steps[k] == Start(e.job, e.when)
    ensures Exec(INIT, steps[..k]).Some? && Exec(INIT, steps[..k]).value.started == e.run
    ensures var r := Exec(INIT, steps[..a + 1]).value.records.Of(e.job); r.lastRun == Some(e.when) && r.status.Failed?
  {
    assert steps == steps[..a + 1] + steps[a + 1..] && steps[..a + 1] == steps[..a] + [steps[a]];
    ExecPrefix(INIT, steps[..a + 1], steps[a + 1..]);
    ExecSnoc(INIT, steps[..a], steps[a]);
    AllDatedToStart(steps[..a]);
    e := Exec(INIT, steps[..a]).value.process.toArchive.value;
    k :| BeganAt(steps[..a], k, e.job, e.run, e.when);
    assert steps[..a][..k] == steps[..k];
  }

  /** Step `f` of the history ended the run that the entry is of, when and how it says. */
  ghost predicate EndedAt(steps: seq<Step>, f: nat, e: Entry) {
    && f < |steps| && steps[f].Finish? && steps[f].job == e.job && steps[f].now == e.when
    && (e.ok <==> !steps[f].outcome.Raised?)
    && Exec(INIT, steps[..f]).Some? && Exec(INIT, steps[..f]).value.records.Of(e.job).run == e.run
  }

  ghost predicate Ended(steps: seq<Step>, e: Entry) {
    exists f: nat :: EndedAt(steps, f, e)
  }

  ghost predicate ClosingIsDated(steps: seq<Step>, s: State, j: Job) {
    s.process.Up? && s.process.holds.Of(j).Closing? ==>
      Ended(steps, s.process.holds.Of(j).entry) && s.process.holds.Of(j).entry.job == j
  }

  lemma ClosingStaysDated(steps: seq<Step>, s: State, step: Step, j: Job)
    requires Exec(INIT, steps) == Some(s) && Enabled(s, step) && ClosingIsDated(steps, s, j)
    ensures ClosingIsDated(steps + [step], Next(s, step), j)
  {
    var more, t := steps + [step], Next(s, step);
    assert more[..|steps|] == steps;
    if t.process.Up? && t.process.holds.Of(j).Closing? {
      var e := t.process.holds.Of(j).entry;
      if step.Finish? && step.job == j {
        assert EndedAt(more, |steps|, e);
      } else {
        var f: nat :| EndedAt(steps, f, e);
        assert more[..f] == steps[..f];
        assert EndedAt(more, f, e);
      }
    }
  }

  lemma {:induction false} AllClosingDated(steps: seq<Step>, j: Job)
    requires Exec(INIT, steps).Some?
    ensures ClosingIsDated(steps, Exec(INIT, steps).value, j)
  {
    if steps != [] {
      var front, last := steps[..|steps| - 1], steps[|steps| - 1];
      assert steps == front + [last];
      ExecSnoc(INIT, front, last);
      AllClosingDated(front, j);
      ClosingStaysDated(front, Exec(INIT, front).value, last, j);
    }
  }

  /** Every other entry is dated to the end of its run, and tells how that was. */
  lemma ReportIsDatedToItsEnd(steps: seq<Step>, a: nat) returns (e: Entry, f: nat)
    requires Exec(INIT, steps).Some? && a < |steps| && steps[a].Archive?
    ensures Exec(INIT, steps[..a]).Some? && Exec(INIT, steps[..a + 1]).Some?
    ensures Exec(INIT, steps[..a + 1]).value.archive == Exec(INIT, steps[..a]).value.archive + [e]
    ensures f < a && e.job == steps[a].job && EndedAt(steps, f, e)
  {
    assert steps == steps[..a + 1] + steps[a + 1..] && steps[..a + 1] == steps[..a] + [steps[a]];
    ExecPrefix(INIT, steps[..a + 1], steps[a + 1..]);
    ExecSnoc(INIT, steps[..a], steps[a]);
    AllClosingDated(steps[..a], steps[a].job);
    e := Exec(INIT, steps[..a]).value.process.holds.Of(steps[a].job).entry;
    f :| EndedAt(steps[..a], f, e);
    assert steps[..a][..f] == steps[..f];
  }

  // -- what stays on record --------------------------------------------------

  predicate Starts(step: Step, j: Job) { step.Start? && step.job == j }

  lemma RestingStep(s: State, step: Step, j: Job)
    requires Inv(s) && Enabled(s, step) && !s.records.Of(j).status.Running? && !Starts(step, j)
    ensures Next(s, step).records.Of(j) == s.records.Of(j)
  {
  }

  lemma {:induction false} RestsUntilStarted(s: State, steps: seq<Step>, j: Job)
    requires Inv(s) && Exec(s, steps).Some? && !s.records.Of(j).status.Running?
    requires forall i | 0 <= i < |steps| :: !Starts(steps[i], j)
    ensures Exec(s, steps).value.records.Of(j) == s.records.Of(j)
    decreases |steps|
  {
    if steps != [] {
      StepKeepsInv(s, steps[0]);
      RestingStep(s, steps[0], j);
      RestsUntilStarted(Next(s, steps[0]), steps[1..], j);
    }
  }

  /** How a run ended stays on record until the job is started again, whatever else happens: failed
      exactly when it raised, and its end is the job's last run. */
  lemma FinishIsOnRecord(before: seq<Step>, j: Job, now: int, o: Outcome, after: seq<Step>)
    requires Exec(INIT, before + [Finish(j, now, o)] + after).Some?
    requires forall i | 0 <= i < |after| :: !Starts(after[i], j)
    ensures var r := Exec(INIT, before + [Finish(j, now, o)] + after).value.records.Of(j);
            && r.lastRun == Some(now) && r.handoff.None?
            && r.status == (if o.Raised? then Status.Failed else Ok)
  {
    AtStep(before, Finish(j, now, o), after);
    FinishStays(Exec(INIT, before).value, j, now, o, after);
  }

  lemma Finished(s: State, j: Job, now: int, o: Outcome)
    requires Inv(s) && Enabled(s, Finish(j, now, o))
    ensures Inv(Next(s, Finish(j, now, o)))
    ensures var r := Next(s, Finish(j, now, o)).records.Of(j);
            r.lastRun == Some(now) && r.handoff.None? && r.status == if o.Raised? then Status.Failed else Ok
  {
    StepKeepsInv(s, Finish(j, now, o));
  }

  lemma FinishStays(s: State, j: Job, now: int, o: Outcome, after: seq<Step>)
    requires Inv(s) && Enabled(s, Finish(j, now, o)) && Exec(Next(s, Finish(j, now, o)), after).Some?
    requires forall i | 0 <= i < |after| :: !Starts(after[i], j)
    ensures var r := Exec(Next(s, Finish(j, now, o)), after).value.records.Of(j);
            r.lastRun == Some(now) && r.handoff.None? && r.status == if o.Raised? then Status.Failed else Ok
  {
    Finished(s, j, now, o);
    RestsUntilStarted(Next(s, Finish(j, now, o)), after, j);
  }

  predicate Pending(s: State, j: Job) { s.process.Up? && j in s.process.stopping && !s.process.holds.Of(j).Free? }

  lemma {:induction false} StopWaits(s: State, steps: seq<Step>, j: Job)
    requires Exec(s, steps).Some? && Pending(s, j)
    requires forall i | 0 <= i < |steps| :: steps[i] != Release(j) && !steps[i].Crash?
    ensures Pending(Exec(s, steps).value, j)
    decreases |steps|
  {
    if steps != [] {
      StopWaits(Next(s, steps[0]), steps[1..], j);
    }
  }

  lemma StopAsked(s: State, j: Job)
    requires Enabled(s, RequestStop(j))
    ensures Pending(Next(s, RequestStop(j)), j)
  {
  }

  /** A stop that was asked for stays pending until the run gives the lock back or the process dies. */
  lemma StopStaysPending(before: seq<Step>, j: Job, after: seq<Step>)
    requires Exec(INIT, before + [RequestStop(j)] + after).Some?
    requires forall i | 0 <= i < |after| :: after[i] != Release(j) && !after[i].Crash?
    ensures var s := Exec(INIT, before + [RequestStop(j)] + after).value; s.process.Up? && j in s.process.stopping
  {
    AtStep(before, RequestStop(j), after);
    StopAsked(Exec(INIT, before).value, j);
    StopWaits(Next(Exec(INIT, before).value, RequestStop(j)), after, j);
  }

  predicate Unstopped(s: State, j: Job) { s.process.Up? ==> j !in s.process.stopping }

  lemma {:induction false} NoStopByItself(s: State, steps: seq<Step>, j: Job)
    requires Exec(s, steps).Some? && Unstopped(s, j)
    requires forall i | 0 <= i < |steps| :: steps[i] != RequestStop(j)
    ensures Unstopped(Exec(s, steps).value, j)
    decreases |steps|
  {
    if steps != [] {
      NoStopByItself(Next(s, steps[0]), steps[1..], j);
    }
  }

  /** And a run is stopped only by a stop asked for after it began, not by one left from an earlier run. */
  lemma OldStopsDoNotCount(before: seq<Step>, j: Job, now: int, after: seq<Step>)
    requires Exec(INIT, before + [Start(j, now)] + after).Some?
    requires forall i | 0 <= i < |after| :: after[i] != RequestStop(j)
    ensures var s := Exec(INIT, before + [Start(j, now)] + after).value; s.process.Up? ==> j !in s.process.stopping
  {
    AtStep(before, Start(j, now), after);
    NoStopByItself(Next(Exec(INIT, before).value, Start(j, now)), after, j);
  }

  // -- a run cut after its hand-off ------------------------------------------

  lemma {:induction false} SavedStays(s: State, steps: seq<Step>, run: nat)
    requires Inv(s) && Exec(s, steps).Some? && run in s.saved
    ensures run in Exec(s, steps).value.saved && Exec(s, steps).value.saved[run] == s.saved[run]
    decreases |steps|
  {
    if steps != [] {
      StepKeepsInv(s, steps[0]);
      SavedStays(Next(s, steps[0]), steps[1..], run);
    }
  }

  predicate SameButNote(a: seq<Row>, b: seq<Row>) {
    && |a| == |b| > 0
    && a[..|a| - 1] == b[..|b| - 1]
    && a[|a| - 1].(note := "") == b[|b| - 1].(note := "")
  }

  lemma ArchivedFaithfully(s: State, steps: seq<Step>, run: nat, e: Entry)
    requires Inv(s) && run in s.saved && Exec(s, steps).Some? && e in Exec(s, steps).value.archive
    ensures Faithful(Exec(s, steps).value, e)
    ensures run in Exec(s, steps).value.saved && Exec(s, steps).value.saved[run] == s.saved[run]
  {
    RunKeepsInv(s, steps);
    SavedStays(s, steps, run);
  }

  /** A restart after the hand-off changes nothing but a note. Take any history up to a hand-off
      and continue it in two ways: uncut, or through any number of crashes and boots. If the host
      answers the same in both, the two archived reports have the same rows in the same order. */
  lemma ResumedLikeUncut(before: seq<Step>, a: seq<Step>, b: seq<Step>, run: nat, ea: Entry, eb: Entry)
    requires Exec(INIT, before).Some? && run in Exec(INIT, before).value.saved
    requires Exec(Exec(INIT, before).value, a).Some? && Exec(Exec(INIT, before).value, b).Some?
    requires ea in Exec(Exec(INIT, before).value, a).value.archive && ea.run == run && ea.ok
    requires eb in Exec(Exec(INIT, before).value, b).value.archive && eb.run == run && eb.ok
    requires var sa, sb := Exec(Exec(INIT, before).value, a).value, Exec(Exec(INIT, before).value, b).value;
             run in sa.outcome && run in sb.outcome && sa.outcome[run] == sb.outcome[run]
    ensures SameButNote(ea.rows, eb.rows)
    ensures Exec(INIT, before).value.saved[run].rows < ea.rows
  {
    InitInv();
    RunKeepsInv(INIT, before);
    var s := Exec(INIT, before).value;
    ArchivedFaithfully(s, a, run, ea);
    ArchivedFaithfully(s, b, run, eb);
  }

  /** The steps of `Scheduler.start` in a new process. */
  function ReconcileSteps(s: State, j: Job): seq<Step> {
    var r := s.records.Of(j);
    if r.status.Running? && !(j.Update? && r.handoff.Some?) then [Reconcile, ArchiveInterrupted] else [Reconcile]
  }

  function StartSteps(s: State): seq<Step> {
    [Boot] + ReconcileSteps(s, LogSweep) + ReconcileSteps(s, Update) + [Ready]
  }

  /** What `_reconcile_interrupted` does about one job: a run that had handed off is left running,
      any other leftover is closed as failed, dated to its own start, and archived. */
  function Reconciled(r: Record, j: Job): Record {
    if r.status.Running? && !(j.Update? && r.handoff.Some?)
    then r.(status := Failed, lastRun := Some(r.startedAt)) else r
  }

  function InterruptedEntry(r: Record, j: Job): seq<Entry> {
    if Reconciled(r, j) == r then [] else [Entry(j, r.run, r.startedAt, false, [])]
  }

  lemma ReconcileOne(s: State, j: Job)
    requires s.process.Booting? && s.process.todo != [] && s.process.todo[0] == j && s.process.toArchive.None?
    requires j.LogSweep? ==> s.records.sweep.handoff.None?
    ensures Exec(s, ReconcileSteps(s, j)).Some?
    ensures var t := Exec(s, ReconcileSteps(s, j)).value;
            && t.records == s.records.With(j, Reconciled(s.records.Of(j), j))
            && t.archive == s.archive + InterruptedEntry(s.records.Of(j), j)
            && t.process == Booting(s.process.todo[1..], None,
                              if j.Update? && s.records.update.status.Running? && s.records.update.handoff.Some?
                              then s.records.update.handoff else s.process.handedOff)
  {
    var r := s.records.Of(j);
    if r.status.Running? && !(j.Update? && r.handoff.Some?) {
      var t := Next(s, Reconcile);
      assert ReconcileSteps(s, j)[1..] == [ArchiveInterrupted];
      assert Exec(t, [ArchiveInterrupted]) == Some(Next(t, ArchiveInterrupted));
    } else {
      assert ReconcileSteps(s, j)[1..] == [];
    }
  }

  /** A boot can always be completed, and afterwards nothing is left over: each job is free, or it
      is the update run that had handed off and is now waited for with its saved rows. */
  lemma BootResumes(s: State)
    requires Inv(s) && s.process.Down?
    ensures Exec(s, StartSteps(s)).Some?
    ensures var t := Exec(s, StartSteps(s)).value;
            && t.records == PerJob(Reconciled(s.records.sweep, LogSweep), Reconciled(s.records.update, Update))
            && t.archive == s.archive + InterruptedEntry(s.records.sweep, LogSweep) +
                 InterruptedEntry(s.records.update, Update)
            && t.process == Up(PerJob(Free, if s.records.update.handoff.Some?
                                            then Finishing(s.records.update.handoff.value) else Free), {})
  {
    var booted := Next(s, Boot);
    ReconcileOne(booted, LogSweep);
    var swept := Exec(booted, ReconcileSteps(s, LogSweep)).value;
    ReconcileOne(swept, Update);
    var both := Exec(swept, ReconcileSteps(s, Update)).value;
    assert Exec(both, [Ready]) == Some(Next(both, Ready));
    ExecConcat(swept, ReconcileSteps(s, Update), [Ready]);
    ExecConcat(booted, ReconcileSteps(s, LogSweep), ReconcileSteps(s, Update) + [Ready]);
    assert StartSteps(s)[1..] == ReconcileSteps(s, LogSweep) + (ReconcileSteps(s, Update) + [Ready]);
  }
}
