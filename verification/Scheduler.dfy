/** The scheduler's own code, segment by segment between its `await`s. Each method is proved to be
    exactly the steps of `Lifecycle` it names, so what holds of every history of steps holds of
    it, including when the process dies between two of those steps. */
module SchedulerProcess {
  import opened Fleet
  import opened Updater
  import opened UpdateMonitor
  import opened Lifecycle

  /** The archived entry `e` of the update run numbered `run`: its rows are those the run returned; and
      if the run handed off, they are the saved rows and the own host's, by the host's answer. */
  ghost predicate UpdateRecorded(s: State, e: Entry, run: nat, ended: int, rows: seq<Row>, saved: Option<Handoff>,
                                 answer: HostAnswer) {
    && e == Entry(Update, run, ended, e.ok, if e.ok then rows else [])
    && SavedBy(s, run) == saved
    && (saved.Some? ==>
          && e.ok && run in s.outcome && s.outcome[run] == Answered(answer)
          && rows == saved.value.rows + [OwnHostRow(saved.value.host, answer, "")])
  }

  lemma ReleaseKeeps(s: State, e: Entry, run: nat, ended: int, rows: seq<Row>, saved: Option<Handoff>,
                     answer: HostAnswer)
    requires s.process.Up? && s.process.holds.update.Closed? && UpdateRecorded(s, e, run, ended, rows, saved, answer)
    ensures var t := Lifecycle.Next(s, Release(Update));
            UpdateRecorded(t, e, run, ended, rows, saved, answer) && t.archive == s.archive && t.records == s.records
  {
  }

  class Scheduler {
    var records: PerJob<Record>          // state.json
    var archive: seq<Entry>              // reports/
    var locked: set<Job>                 // _locks
    var running: set<Job>                // _running
    var stopping: set<Job>               // cancel._requests
    var started: nat                     // the number of the next run; see `Lifecycle.Record`
    ghost var s: State

    ghost predicate Valid()
      reads this
    {
      && Inv(s)
      && records == s.records && archive == s.archive && started == s.started
      && (s.process.Up? ==>
            && (forall j :: j in locked <==> !s.process.holds.Of(j).Free?)
            && running == locked
            && stopping == s.process.stopping)
    }

    /** A new process: it finds the disk as the last one left it, and nothing else. */
    constructor (records: PerJob<Record>, archive: seq<Entry>, started: nat, ghost left: State)
      requires Inv(left) && left.process.Down?
      requires records == left.records && archive == left.archive && started == left.started
      ensures Valid() && s == Lifecycle.Next(left, Boot)
    {
      this.records, this.archive, this.started := records, archive, started;
      locked, running, stopping := {}, {}, {};
      s := Lifecycle.Next(left, Boot);
      StepKeepsInv(left, Boot);
    }

    /** `state.mark_interrupted` and its archive entry. */
    method CloseInterrupted(j: Job)
      requires Valid() && s.process.Booting? && s.process.toArchive.None?
      requires s.process.todo != [] && s.process.todo[0] == j
      requires records.Of(j).status.Running? && !(j.Update? && records.Of(j).handoff.Some?)
      modifies this
      ensures Valid() && Exec(old(s), [Reconcile, ArchiveInterrupted]) == Some(s)
    {
      var r := records.Of(j);
      records := records.With(j, r.(status := Status.Failed, lastRun := Some(r.startedAt)));
      StepKeepsInv(s, Reconcile);
      ghost var marked := Lifecycle.Next(s, Reconcile);
      archive := archive + [Entry(j, r.run, r.startedAt, false, [])];
      StepKeepsInv(marked, ArchiveInterrupted);
      s := Lifecycle.Next(marked, ArchiveInterrupted);
      assert Exec(marked, [ArchiveInterrupted]) == Some(s);
      assert [Reconcile, ArchiveInterrupted][1..] == [ArchiveInterrupted];
    }

    /** One turn of the loop in `_reconcile_interrupted`; the hand-off to finish, if it is one. */
    method ReconcileJob(j: Job) returns (handedOff: Option<Handoff>)
      requires Valid() && s.process.Booting? && s.process.toArchive.None?
      requires s.process.todo != [] && s.process.todo[0] == j
      modifies this
      ensures Valid() && Exec(old(s), ReconcileSteps(old(s), j)) == Some(s)
      ensures handedOff ==
              if j.Update? && old(records).update.status.Running? then old(records).update.handoff else None
    {
      var r := records.Of(j);
      handedOff := None;
      if r.status.Running? && !(j.Update? && r.handoff.Some?) {
        CloseInterrupted(j);
        return;
      }
      if r.status.Running? {
        handedOff := r.handoff;
      }
      StepKeepsInv(s, Reconcile);
      assert Exec(Lifecycle.Next(s, Reconcile), []) == Some(Lifecycle.Next(s, Reconcile));
      s := Lifecycle.Next(s, Reconcile);
    }

    /** `start`: close what the last process left open, then take the update lock for a hand-off
        that is still out, before any other task can run. */
    method Start()
      requires Valid() && s.process == Booting([LogSweep, Update], None, None)
      modifies this
      ensures Valid() && s.process.Up? && s.process.stopping == {}
      ensures records == PerJob(Reconciled(old(records).sweep, LogSweep), Reconciled(old(records).update, Update))
      ensures archive == old(archive) + InterruptedEntry(old(records).sweep, LogSweep) +
              InterruptedEntry(old(records).update, Update)
      ensures s.process.holds == PerJob(Free, if old(records).update.handoff.Some?
                                              then Finishing(old(records).update.handoff.value) else Free)
    {
      ReconcileOne(s, LogSweep);
      var none := ReconcileJob(LogSweep);
      ReconcileOne(s, Update);
      var handedOff := ReconcileJob(Update);
      StepKeepsInv(s, Ready);
      s := Lifecycle.Next(s, Ready);
      locked, stopping := if handedOff.Some? then {Update} else {}, {};
      running := locked;
    }

    /** `run` up to its `await`. Refused, with nothing changed, exactly when the job holds its
        lock; otherwise no stop is pending for the run that begins. */
    method BeginRun(j: Job, now: int) returns (accepted: bool)
      requires Valid() && s.process.Up?
      modifies this
      ensures Valid() && (accepted <==> old(s).process.holds.Of(j).Free?)
      ensures !accepted ==> s == old(s)
      ensures accepted ==> s == Lifecycle.Next(old(s), Step.Start(j, now)) && j !in s.process.stopping
      ensures accepted ==>
                && records.Of(j).status.Running? && records.Of(j).startedAt == now && records.Of(j).run == old(started)
                && records.Of(j).lastRun == old(records).Of(j).lastRun && records.Of(j).handoff.None?
    {
      if j in locked {
        return false;
      }
      locked := locked + {j};
      stopping := stopping - {j};
      running := running + {j};
      records := records.With(j, Record(Status.Running, now, records.Of(j).lastRun, None, started));
      started := started + 1;
      StepKeepsInv(s, Step.Start(j, now));
      s := Lifecycle.Next(s, Step.Start(j, now));
      accepted := true;
    }

    /** `on_handoff`, from the worker thread: `state.set_handoff`. */
    method SetHandoff(h: Handoff)
      requires Valid() && Enabled(s, HandOff(h))
      modifies this
      ensures Valid() && s == Lifecycle.Next(old(s), HandOff(h)) && records.update.handoff == Some(h)
    {
      records := records.With(Update, records.update.(handoff := Some(h)));
      StepKeepsInv(s, HandOff(h));
      s := Lifecycle.Next(s, HandOff(h));
    }

    /** `state.mark_finished` */
    method MarkFinished(j: Job, now: int, ok: bool, ghost o: Outcome)
      requires Valid() && s.process.Up? && CanEnd(s, j, o) && ok == !o.Raised?
      modifies this
      ensures Valid() && s == Lifecycle.Next(old(s), Finish(j, now, o)) && s.process.holds.Of(j).Closing?
    {
      var r := records.Of(j);
      records := records.With(j, r.(status := if ok then Ok else Status.Failed, lastRun := Some(now), handoff := None));
      StepKeepsInv(s, Finish(j, now, o));
      s := Lifecycle.Next(s, Finish(j, now, o));
    }

    /** `reports.archive` */
    method ArchiveEntry(j: Job, e: Entry)
      requires Valid() && s.process.Up? && s.process.holds.Of(j).Closing? && s.process.holds.Of(j).entry == e
      modifies this
      ensures Valid() && s == Lifecycle.Next(old(s), Archive(j))
    {
      archive := archive + [e];
      StepKeepsInv(s, Archive(j));
      s := Lifecycle.Next(s, Archive(j));
    }

    /** `_record`: the state file first, then the archive. */
    method RecordOutcome(j: Job, now: int, ok: bool, rows: seq<Row>, ghost o: Outcome)
      requires Valid() && s.process.Up? && CanEnd(s, j, o) && ok == !o.Raised?
      requires rows == RowsOf(s.process.holds.Of(j), SavedBy(s, records.Of(j).run), o)
      modifies this
      ensures Valid() && Enabled(old(s), Finish(j, now, o))
      ensures var marked := Lifecycle.Next(old(s), Finish(j, now, o));
              Enabled(marked, Archive(j)) && s == Lifecycle.Next(marked, Archive(j))
      ensures archive == old(archive) + [Entry(j, old(records).Of(j).run, now, ok, rows)]
    {
      var e := Entry(j, records.Of(j).run, now, ok, rows);
      MarkFinished(j, now, ok, o);
      ArchiveEntry(j, e);
    }

    /** The `finally` of `run` (which also clears the stop) or of `_finish_handed_off`. */
    method EndRun(j: Job, clears: bool)
      requires Valid() && s.process.Up? && s.process.holds.Of(j) == Closed(clears)
      modifies this
      ensures Valid() && s == Lifecycle.Next(old(s), Release(j))
    {
      running := running - {j};
      if clears {
        stopping := stopping - {j};
      }
      locked := locked - {j};
      StepKeepsInv(s, Release(j));
      s := Lifecycle.Next(s, Release(j));
    }

    /** `run` for the update of the fleet, from start to end: the rows archived for the run are the rows
        `Updater.Run.RunUpdates` returned, and where the run handed off, its hand-off is on disk with
        them and the archived rows are the saved ones followed by the own host's. And a run it was: one
        of the whole fleet, in this world. */
    method RunUpdateJob(cfg: Config, enrolled: set<Address>, world: World, begun: int, ended: int)
        returns (accepted: bool, rows: seq<Row>, ghost saved: Option<Handoff>, ghost answer: HostAnswer,
                 ghost own: Option<string>, ghost run: RunLog)
      requires Valid() && s.process.Up?
      modifies this
      ensures Valid() && (accepted <==> old(s).process.holds.update.Free?)
      ensures !accepted ==> s == old(s)
      ensures accepted ==>
                && s.process.Up? && s.process.holds == old(s).process.holds.With(Update, Free)
                && |archive| == |old(archive)| + 1 && archive[..|old(archive)|] == old(archive)
                && UpdateRecorded(s, archive[|old(archive)|], old(started), ended, rows, saved, answer)
                && run in FleetRuns(cfg, own) && run == RunLog(world, enrolled, run.log, run.raised, rows)
                && archive[|old(archive)|].ok == !run.raised
    {
      rows, saved, answer, own, run := [], None, Gone, None, RunLog(world, enrolled, [], false, []);
      accepted := BeginRun(Update, begun);
      if !accepted {
        return;
      }
      rows, saved, answer, own, run := RunBegun(cfg, enrolled, world, ended);
    }

    /** The rest of `run`, once the job has its lock. */
    method RunBegun(cfg: Config, enrolled: set<Address>, world: World, ended: int)
        returns (rows: seq<Row>, ghost saved: Option<Handoff>, ghost answer: HostAnswer, ghost own: Option<string>,
                 ghost run: RunLog)
      requires Valid() && s.process.Up? && s.process.holds.update.Working? && records.update.run !in s.saved
      modifies this
      ensures Valid() && s.process.Up? && s.process.holds == old(s).process.holds.With(Update, Free)
      ensures |archive| == |old(archive)| + 1 && archive[..|old(archive)|] == old(archive)
      ensures UpdateRecorded(s, archive[|old(archive)|], old(records).update.run, ended, rows, saved, answer)
      ensures run in FleetRuns(cfg, own) && run == RunLog(world, enrolled, run.log, run.raised, rows)
      ensures archive[|old(archive)|].ok == !run.raised
    {
      rows, saved, answer, own, run := WorkAndRecord(cfg, enrolled, world, ended);
      ReleaseKeeps(s, archive[|archive| - 1], old(records).update.run, ended, rows, saved, answer);
      EndRun(Update, true);
    }

    /** The worker's part of it. */
    method WorkAndRecord(cfg: Config, enrolled: set<Address>, world: World, ended: int)
        returns (rows: seq<Row>, ghost saved: Option<Handoff>, ghost answer: HostAnswer, ghost own: Option<string>,
                 ghost run: RunLog)
      requires Valid() && s.process.Up? && s.process.holds.update.Working? && records.update.run !in s.saved
      modifies this
      ensures Valid() && s.process.Up? && s.process.holds == old(s).process.holds.With(Update, Closed(true))
      ensures |archive| == |old(archive)| + 1 && archive[..|old(archive)|] == old(archive)
      ensures UpdateRecorded(s, archive[|old(archive)|], old(records).update.run, ended, rows, saved, answer)
      ensures run in FleetRuns(cfg, own) && run == RunLog(world, enrolled, run.log, run.raised, rows)
      ensures archive[|old(archive)|].ok == !run.raised
    {
      var raised, handoff;
      raised, rows, handoff, answer, own, run := Work(cfg, enrolled, world);
      saved := handoff;
      SaveAndRecord(ended, raised, rows, handoff, answer);
    }

    method SaveAndRecord(ended: int, raised: bool, rows: seq<Row>, handoff: Option<Handoff>, ghost answer: HostAnswer)
      requires Valid() && s.process.Up? && s.process.holds.update.Working? && records.update.run !in s.saved
      requires handoff.Some? ==>
                 !raised && rows == handoff.value.rows + [OwnHostRow(handoff.value.host, answer, "")]
      modifies this
      ensures Valid() && s.process.Up? && s.process.holds == old(s).process.holds.With(Update, Closed(true))
      ensures |archive| == |old(archive)| + 1 && archive[..|old(archive)|] == old(archive)
      ensures UpdateRecorded(s, archive[|old(archive)|], old(records).update.run, ended, rows, handoff, answer)
      ensures archive[|old(archive)|].ok == !raised
    {
      if handoff.Some? {
        SetHandoff(handoff.value);
      }
      RecordUpdate(ended, raised, rows, handoff, answer);
    }

    /** The end of `run`: `_record` with what the worker returned or raised. */
    method RecordUpdate(now: int, raised: bool, rows: seq<Row>, ghost saved: Option<Handoff>, ghost answer: HostAnswer)
      requires Valid() && s.process.Up? && s.process.holds.update.Working?
      requires SavedBy(s, records.update.run) == saved
      requires saved.Some? ==> !raised && rows == saved.value.rows + [OwnHostRow(saved.value.host, answer, "")]
      modifies this
      ensures Valid() && s.process.Up? && s.process.holds == old(s).process.holds.With(Update, Closed(true))
      ensures archive == old(archive) +
              [Entry(Update, old(records).update.run, now, !raised, if raised then [] else rows)]
      ensures records.update.run == old(records).update.run && records.update.handoff.None? && s.saved == old(s).saved
      ensures saved.Some? ==> records.update.run in s.outcome && s.outcome[records.update.run] == Answered(answer)
    {
      ghost var o := if raised then Outcome.Raised else if saved.Some? then Answered(answer) else Returned(rows);
      RecordOutcome(Update, now, !raised, if raised then [] else rows, o);
    }

    /** `_finish_handed_off`: the restarted process's end of the same run. */
    method FinishHandedOff(servers: seq<Server>, answer: HostAnswer, ended: int) returns (rows: seq<Row>)
      requires Valid() && s.process.Up? && s.process.holds.update.Finishing?
      modifies this
      ensures Valid() && s.process.Up? && s.process.holds == old(s).process.holds.With(Update, Free)
      ensures archive == old(archive) + [Entry(Update, old(records).update.run, ended, true, rows)]
      ensures var h := old(s).process.holds.update.handoff;
              && old(s).saved[old(records).update.run] == h
              && (h.host in Names(servers) ==> rows == h.rows + [OwnHostRow(h.host, answer, RESTARTED)])
    {
      var h := records.update.handoff.value;
      rows := FinishHandedOffUpdate(servers, h, answer);
      RecordOutcome(Update, ended, true, rows, if h.host in Names(servers) then Answered(answer) else HostRemoved);
      EndRun(Update, false);
    }

    /** `request_stop`: only a job that is running can be asked to stop. */
    method RequestStop(j: Job) returns (ok: bool)
      requires Valid() && s.process.Up?
      modifies this
      ensures Valid() && (ok <==> !old(s).process.holds.Of(j).Free?)
      ensures s == if ok then Lifecycle.Next(old(s), Step.RequestStop(j)) else old(s)
    {
      if j !in running {
        return false;
      }
      stopping := stopping + {j};
      StepKeepsInv(s, Step.RequestStop(j));
      s := Lifecycle.Next(s, Step.RequestStop(j));
      ok := true;
    }
  }

  /** The worker thread: `jobs.run_update`, and what it told `on_handoff`. */
  method Work(cfg: Config, enrolled: set<Address>, world: World)
      returns (raised: bool, rows: seq<Row>, handoff: Option<Handoff>, ghost answer: HostAnswer,
               ghost own: Option<string>, ghost report: RunLog)
    ensures report in FleetRuns(cfg, own) && report == RunLog(world, enrolled, report.log, raised, rows)
    ensures handoff.Some? ==> !raised && rows == handoff.value.rows + [OwnHostRow(handoff.value.host, answer, "")]
    ensures handoff.Some? ==> report.log != [] && ToldOfOwn(report.log[|report.log| - 1], answer)
  {
    var run := new Run(cfg, enrolled, world);
    raised, rows, own, answer := run.RunUpdates();
    handoff := run.handoff;
    report := RunLog(world, enrolled, run.log, raised, rows);
    FleetRunIsOne(cfg, own, report, run.watch);
  }

  /** `jobs.finish_handed_off_update`: the saved rows, and one for the host they were saved for. */
  method FinishHandedOffUpdate(servers: seq<Server>, h: Handoff, answer: HostAnswer) returns (rows: seq<Row>)
    ensures rows == RowsOf(Finishing(h), None, if h.host in Names(servers) then Answered(answer) else HostRemoved)
  {
    rows := h.rows;
    for i := 0 to |servers|
      invariant h.host !in Names(servers)[..i] && rows == h.rows
    {
      if servers[i].name == h.host {
        assert Names(servers)[i] == h.host;
        return rows + [OwnHostRow(h.host, answer, RESTARTED)];
      }
    }
    rows := rows + [Updater.Failed(Machine(h.host), true, RemovedMeanwhile)];
  }

  // -- the report ------------------------------------------------------------

  predicate IsUpdated(r: Row) { r.success && !r.skipped }

  predicate IsFailed(r: Row) { !r.success }

  predicate IsSkipped(r: Row) { r.skipped }

  function Count(rows: seq<Row>, p: Row -> bool): (n: nat)
    ensures n <= |rows|
  {
    if rows == [] then 0 else Count(rows[..|rows| - 1], p) + if p(rows[|rows| - 1]) then 1 else 0
  }

  /** `_update_outcome`: how many rows are counted as updated, failed and skipped. */
  method CountOutcome(rows: seq<Row>) returns (updated: nat, failed: nat, skipped: nat)
    ensures updated == Count(rows, IsUpdated) && failed == Count(rows, IsFailed) && skipped == Count(rows, IsSkipped)
  {
    updated, failed, skipped := 0, 0, 0;
    for i := 0 to |rows|
      invariant updated == Count(rows[..i], IsUpdated)
      invariant failed == Count(rows[..i], IsFailed)
      invariant skipped == Count(rows[..i], IsSkipped)
    {
      assert rows[..i + 1][..i] == rows[..i];
      if !rows[i].success { failed := failed + 1; }
      if rows[i].skipped { skipped := skipped + 1; }
      if rows[i].success && !rows[i].skipped { updated := updated + 1; }
    }
    assert rows[..|rows|] == rows;
  }

  /** Every row is counted once, exactly when no skip is a failure. */
  lemma {:induction false} CountsAddUpIff(rows: seq<Row>)
    ensures Count(rows, IsUpdated) + Count(rows, IsFailed) + Count(rows, IsSkipped) >= |rows|
    ensures Count(rows, IsUpdated) + Count(rows, IsFailed) + Count(rows, IsSkipped) == |rows|
       <==> forall r | r in rows :: r.skipped ==> r.success
  {
    if rows != [] {
      var front, last := rows[..|rows| - 1], rows[|rows| - 1];
      assert rows == front + [last];
      CountsAddUpIff(front);
    }
  }

  /** And in the report of an update run none is: its summary accounts for every row. */
  lemma SummaryAddsUp(cfg: Config, w: Watch, rows: seq<Row>)
    requires AllBacked(cfg, w, rows)
    ensures Count(rows, IsUpdated) + Count(rows, IsFailed) + Count(rows, IsSkipped) == |rows|
  {
    forall r | r in rows
      ensures r.skipped ==> r.success
    {
      assert r in BackedRows(cfg, w);
    }
    CountsAddUpIff(rows);
  }
}
