# timar: what its runs keep

timar wakes, updates and re-sleeps the machines of a small fleet, and survives being restarted by
its own update. This project models the parts of it whose correctness spans whole runs, whole
histories or whole graphs, and proves what they keep.

SSH, probes, the clock and other threads are a `World` that answers arbitrarily: every command can
fail, time out or raise, every probe can say anything, a stop can be asked for at any boundary, the
process can die between any two steps. Every question of an update run and every reply to it is in
its log, and the run goes by the replies: no machine counts as up, woken, updated or failed but by
what the world said, so that a report of nothing done is true only where the world left nothing to do.
What the source updates in place is a class here, and each of its methods is tied to a function of the
old state; the properties are lemmas about those functions, or invariants.

| file | models |
|---|---|
| `Fleet.dfy`, `Text.dfy` | the configured fleet; strings in order and fixed-width numbers |
| `UpdateMonitor.dfy` | a reference monitor over the events of a run, and what acceptance by it means |
| `Updater.dfy` | the update run itself (`timar/updater.py`), proved to be accepted whatever it meets |
| `Lifecycle.dfy`, `Scheduler.dfy` | jobs across processes: locks, status, hand-off, archive, crash and boot; and the scheduler's methods as steps of that machine |
| `Schedule.dfy`, `JobLoop.dfy` | due times and the loop that sleeps towards them |
| `UpdateWindow.dfy`, `WindowHistory.dfy`, `WindowTicks.dfy` | update windows: whose turn it is, one machine over any number of ticks, and the loop that runs them |
| `OnDemand.dfy`, `Rename.dfy`, `Power.dfy`, `WakeBoard.dfy` | the hypervisor graph: who is expected off and why, renaming, which wakes can end, chained wakes in flight |
| `Settings.dfy`, `PageRename.dfy`, `RenameReasons.dfy`, `SettingsPages.dfy` | every accepted edit of the configuration, what a rename on the page means, and the handlers that make it |
| `Markup.dfy`, `Notify.dfy`, `Chunks.dfy` | splitting a long message into chunks of proper markup |
| `Lockout.dfy` | the capped table of login failures |
| `Alerts.dfy` | down and back messages, queued, capped and delivered |
| `Reports.dfy` | the archive, pruned per job |

"As it was found" has two forms. In any configuration, even one that lists a machine twice, every
machine the run brings up is shut down later in the run. Where each machine is configured once, as
the settings pages keep it, the run also visits each machine once, brings it up and shuts it down at
most once, does nothing about it afterwards, and neither brings up nor shuts down one it found running.

Some results are about where a promise stops holding:

- A daily or weekly run can be missed. The loop sleeps at most a minute at a time, and a sleep that
  overshoots past the due instant makes the next look find the following one. No due instant is lost
  this way exactly when no turn with more than a minute to wait overshoots its slice by the rest of
  the wait (`JobLoop.NoneIsMissedIff`); an execution that misses 09:00 is `JobLoop.ARunIsSleptThrough`.
- An interval job comes due exactly when a run of it is recorded (`Schedule.IntervalNeedsARecordedRun`).
- Machines with a window are updated N days apart, but not run N days apart: after a run that did not
  update it, a machine is run again in the next window offered (`WindowTicks.WindowLoop.RunExactlyWhenDue`).
- The twelve hours of slack give a period of exactly N days, for every N, if and only if the window
  is at most twelve hours long (`UpdateWindow.PeriodIsExactIffHalfADay`).
- Renaming a server on its page keeps its place exactly when the form repeats the stored link
  (`PageRename.RenameIsRelinkIff`), and the reasons of the whole fleet exactly when its own reason is
  the same by either link (`RenameReasons.RenameKeepsReasonsIff`); a guest renamed with the hypervisor
  left blank can no longer be started (`PageRename.RenamedGuestIsStranded`).
- Saving the edit of a server that was deleted meanwhile adds no entry, and leaves a guest nobody
  has configured exactly when the form names a hypervisor (`Settings.VanishedEdit`).
- A lock of 300 seconds is free for its last fraction of a second, so the rate bound is five wrong
  passwords in 299 seconds, and false of every longer interval (`Lockout.AtMostFiveIff`).

And one about texts: the reason "expected off because of hypervisor h" is shown as the bare name, so
a hypervisor called `wol` is indistinguishable from a wake address (`OnDemand.TextIsUnambiguous`).

## Model

| member | source | states |
|---|---|---|
| `UpdateMonitor.BroughtUpIsShutDown` | timar/updater.py:284-405 | every machine the run brings up is shut down later in the same run, and in between neither brought up nor shut down again |
| `UpdateMonitor.ShutDownWasBroughtUp` | timar/updater.py:324-405 | every shutdown undoes exactly one earlier bring-up of that machine by this run |
| `UpdateMonitor.BroughtUpOnce` | timar/updater.py:284-405 | where each machine is configured once, a run brings a machine up at most once |
| `UpdateMonitor.ShutDownOnce` | timar/updater.py:284-405 | and shuts it down at most once: exactly once, with the row above, if it brought it up |
| `UpdateMonitor.DoneAfterShutDown` | timar/updater.py:284-405 | and once it has shut a machine down it does not look at, wake, start, update or shut down that machine again |
| `UpdateMonitor.FoundUpIsNeverShutDown` | timar/updater.py:274-328 | and a machine its visit finds running is never brought up and never shut down, before or after |
| `UpdateMonitor.VisitedOnce` | timar/updater.py:586-621 | and no machine is visited twice |
| `UpdateMonitor.NoUpdateAfterShutDown` | timar/updater.py:284-405 | in any configuration, machines listed twice included: no update after a shutdown unless the machine was seen up again |
| `UpdateMonitor.FoundRunningIsLeftAlone` | timar/updater.py:284-328 | in any configuration: a machine found running is shut down only if a later look found it off and the run then brought it up itself |
| `UpdateMonitor.GuestsGoDownFirst` | timar/updater.py:330-405 | whatever was started on a hypervisor is shut down before the hypervisor is |
| `UpdateMonitor.NoStepAfterStop` | timar/updater.py:224-234 | once a stop is requested no further host, guest or compose project begins |
| `UpdateMonitor.OwnHostIsLast` | timar/updater.py:527-560 | after the hand-off the run only connects to its own host and asks it how the update goes: nothing is probed, woken, started, updated, shut down or begun |
| `UpdateMonitor.OnlyMembersAreTouched` | timar/membership.py:87-95 | only machines with SSH, not left out, and reached with timar's key before that moment are woken, started, updated or handed off; none without a command is, and no packet goes to one that is switched on by hand |
| `UpdateMonitor.UpdatedByCommand` | timar/updater.py:94-108 | what counts as updated had a successful update command in the log, its own or the one handed off |
| `UpdateMonitor.FailedByEvent` | timar/updater.py:313-318 | what counts as failed had a failing command, connection or wait in the log |
| `UpdateMonitor.SleptByShutDown` | timar/updater.py:154-169 | what counts as put back to sleep has a shutdown in the log |
| `UpdateMonitor.TroubleWasAsked` | timar/updater.py:274-318 | nothing fails by the run's own word: each failure is what the last reply said, a bad one to a question about the same machine or project, on its visit and after a look at it |
| `UpdateMonitor.SleeperIsCalled` | timar/updater.py:284-288 | where each machine is configured once: one that its visit found down, and that was updated, given up, in use or kept from its update, was sent its packet or started by its hypervisor, unless timar itself was found on it, or, of a guest, the hypervisor could not be reached |
| `UpdateMonitor.InUseIsLeftAlone` | timar/updater.py:295-304 | a machine somebody was seen at is not sent its update command, unless it is visited anew |
| `UpdateMonitor.RestartIsMade` | timar/updater.py:319-328 | a restart the update asks for is made before the next host begins and before the run ends, unless an exception ends the step of that machine |
| `UpdateMonitor.RestartWasAsked` | timar/updater.py:319-328 | only a Windows machine is restarted, and only after its reply that it wants to be |
| `UpdateMonitor.ShutDownWasTried` | timar/updater.py:154-169 | a shutdown is a power-off command on a connection that was made, or the connection that failed |
| `UpdateMonitor.ProjectWasWanted` | timar/updater.py:225-243 | no compose project is sent its update that is not registered, is left out, or is the one timar runs in |
| `UpdateMonitor.StopWasAsked` | timar/updater.py:224-226 | a run sees no stop that nobody asked for |
| `Updater.Run.RunUpdates` | timar/updater.py:563-631 | in every world: the log is accepted with every machine as it was found and nothing in it is made up, every row is borne out by it, hosts and guests begin in config order with timar's own host last, no other machine is visited, only the exception of a magic packet cuts the run, and a run that handed off reports the saved rows and the own host's row by the answer in the log; and a run that was neither stopped nor cut has handled every host that has a turn with its compose projects, the guests of each unless there is a reason not to, and timar's own host: each with a command was sent it, unless the log holds a bad reply to an earlier call for that machine, somebody was at it, or it was found off and is switched on by hand; each found down was called; each Windows machine was asked who is at it and whether it wants a restart; and the report has exactly the hosts that have a turn, the guests begun, and the guests of hosts that are not in the run |
| `Updater.NotInReport` | timar/updater.py:586-621 | a guest of none but timar's own host, watched-only hosts and hosts with a window of their own has no row |
| `Updater.Run.RunOnly` | timar/updater.py:563-588 | the same of a run of one machine in its own window: the machine and its guests are handled, sent their update commands unless a bad reply is in the log, and the report is about it and the guests begun and nobody else |
| `Updater.Run.WalkFleet` | timar/updater.py:586-621 | the walk begins a prefix of the walk order, all of it when neither stopped nor raised, and then has handled every host it began |
| `Updater.Run.UpdateServer` | timar/updater.py:256-429 | one host and its guests: everything is as found afterwards, each machine is visited at most once, the guests begun are a prefix of `manages_vms`, and all of it unless a stop came, the host had no command or was off and stayed off, or an exception cut its own step short; host and guests are handled, which means sent their update command unless the world kept the run from it, each with a row for every registered compose project in order, and timar's own host keeps its state |
| `Updater.Run.UpdateGuests` | timar/updater.py:330-405 | the guests begun are a prefix of `manages_vms`, all of them without a stop; each is handled, with its compose projects, and put back as found; and exactly the configured ones begun have rows |
| `Updater.Run.UpdateFreeHost` | timar/updater.py:303-313 | a host that is up and free is sent its update command, whatever comes of it, then its projects are; on Windows it is then asked whether it wants a restart |
| `Updater.Run.UpdateReachedVm` | timar/updater.py:330-405 | and so is a guest on an open connection |
| `Updater.Run.UpdateProject` | timar/updater.py:222-243 | a project is skipped exactly when it is left out or timar runs in it, else its row is what its own command came back with |
| `Updater.Run.FindSelfHost` | timar/updater.py:432-458 | the host found is a configured one that is up and whose docker knows timar's container; none is found only where each configured host of a project, asked, said no, or timar runs in no container |
| `Updater.Run.UpdateContainers` | timar/updater.py:208-253 | without a stop, one row for each registered project in order, or a single row that docker could not be asked; every row is true |
| `Updater.Run.RestartIfAsked` | timar/updater.py:172-190 | the restart amends the host's own row and no other |
| `Updater.Run.WaitForSelfUpdate` | timar/updater.py:496-524 | exactly one row, for the own host, decided by its answer; and the answer is the status the host gave, or the time that ran out with no status yet |
| `Updater.Run.UpdateSelf` | timar/updater.py:527-560 | the rows saved at the hand-off are all rows so far, and what is reported is those and the own host's row |
| `Updater.OwnHostRow` | timar/updater.py:496-524 | the own host's row is for that host, never a skip, and succeeds exactly when the host answered that the update worked |
| `Updater.ReportIsTrue` | timar/updater.py:24-50 | of a finished run: a skip is no failure and its reason is in the log or the configuration, a failure is something asked of that machine that failed, a success is an update that worked, "was running" is a machine found up, "woken, updated, shut down again" one brought up and later shut down by the run |
| `Updater.HandledShows` | timar/updater.py:256-318 | no run does nothing: a machine that was handled, was in the run from the start and has a command of its own or a platform with one was sent it, with the reply it goes by in the log, unless a bad reply to an earlier call for it is, somebody was seen at it, or it was found off and is switched on by hand; and one found down was called |
| `Updater.GuestShows` | timar/updater.py:330-405 | and a guest that was handled, however it is switched on otherwise |
| `Updater.HostIsShown` | timar/updater.py:256-405 | a host and, unless its own step failed, each of its guests with a command |
| `Updater.SeenToShows` | timar/updater.py:586-631 | every host that has a turn in a fleet run, and timar's own |
| `Updater.UpdatedInAGoodWorld` | timar/updater.py:256-318 | in a world where every call goes well, a handled machine was updated or handed off, unless somebody was at it |
| `Updater.ProjectRowShows` | timar/updater.py:208-243 | a project's row that is no skip is the reply to its own update command, and docker is blamed only where it would not list the containers |
| `Updater.CutIsInTheLog` | timar/updater.py:284-285 | a run is cut short only by a magic packet that could not be sent |
| `Updater.ProjectsShow` | timar/updater.py:208-253 | and of a run that was not stopped the report has a row for each of its compose projects, in order, or says docker could not be asked, unless moreover it did not come up or an exception ended its step |
| `Lifecycle.RunKeepsInv` | timar/scheduler.py:53-115 | start, finish, stop, hand-off, crash and boot, in any order, keep the invariant of records, locks, rows and archive |
| `Lifecycle.RunningIsLive` | timar/scheduler.py:64-115 | in a process that is up, status "running" means a live worker or pending finisher, and a stored hand-off a running update |
| `Lifecycle.ClosedAndArchivedOnce` | timar/scheduler.py:213-225 | every run ever started is closed once and archived at most once, and exactly once unless a crash fell between the two writes |
| `Lifecycle.LostOnlyBetweenTheWrites` | timar/scheduler.py:213-225 | in every history: a run that was started is missing from the archive exactly when it is still open, is between the two writes that close it, or the process died there |
| `Lifecycle.ResumedLikeUncut` | timar/scheduler.py:64-115 | a run cut any number of times after its hand-off reports the rows of the uncut run for the same host answer, in the same order, apart from a note |
| `SchedulerProcess.Scheduler.RunUpdateJob` | timar/scheduler.py:227-261 | the uncut half, from the update run itself: the entry is dated to the end and says whether the run raised, the rows archived are those `RunUpdates` returned, that is of a fleet run in this world, and after a hand-off they are the rows it saved and the own host's by its answer |
| `SchedulerProcess.Scheduler.FinishHandedOff` | timar/scheduler.py:98-115 | the resumed half: the rows archived are the saved ones and the own host's by its answer, with a note |
| `Lifecycle.BootResumes` | timar/scheduler.py:53-62 | a boot can always be completed, and afterwards each job is free or is the handed-off update being waited for |
| `Lifecycle.ReconcileOne` | timar/scheduler.py:64-96 | what becomes of one leftover job, exactly: left running if handed off, else closed as failed, dated to the start on its record, and archived |
| `Lifecycle.InterruptedIsDatedToItsStart` | timar/state.py:104-142 | over any history: the entry of an interrupted run has the time of the very step that began that run, which becomes the job's last run |
| `Lifecycle.BegunOnce` | timar/state.py:64-65 | and one step alone began it |
| `Lifecycle.ReportIsDatedToItsEnd` | timar/scheduler.py:213-225 | every other entry has the time of the step that ended its run, its rows, and whether it raised |
| `Lifecycle.FinishIsOnRecord` | timar/state.py:68-86 | from a finish to the job's next start, through crashes and boots, its record has that end as the last run, success or failure by the outcome, and no hand-off |
| `Lifecycle.StopStaysPending` | timar/scheduler.py:202-208 | a stop asked for stays pending until the run ends or the process dies |
| `Lifecycle.OldStopsDoNotCount` | timar/scheduler.py:240-245 | after a start no stop is pending that was not asked for since |
| `SchedulerProcess.Scheduler.Start` | timar/scheduler.py:53-62 | a new process performs exactly the boot steps of the state machine and holds the update lock if a hand-off is out |
| `SchedulerProcess.Scheduler.ReconcileJob` | timar/scheduler.py:64-96 | one job's part of it |
| `SchedulerProcess.Scheduler.CloseInterrupted` | timar/state.py:104-142 | `mark_interrupted` and its archive entry are the two steps |
| `SchedulerProcess.Scheduler.BeginRun` | timar/scheduler.py:227-245 | refused, with nothing changed, exactly when the job holds its lock; else the record is running since now, under a new number, with the last run kept and no hand-off, and no stop is pending |
| `SchedulerProcess.Scheduler.SetHandoff` | timar/state.py:89-98 | saves the hand-off of the running update |
| `SchedulerProcess.Scheduler.RecordOutcome` | timar/scheduler.py:213-225 | the state file first, then the archive, as two steps |
| `SchedulerProcess.Scheduler.EndRun` | timar/scheduler.py:246-261 | the lock is given back, and the stop cleared only by the run that may |
| `SchedulerProcess.Scheduler.RequestStop` | timar/scheduler.py:202-208 | only a running job can be asked to stop |
| `SchedulerProcess.FinishHandedOffUpdate` | timar/jobs.py:146-159 | the saved rows followed by one row for the host they were saved for, or for "deleted meanwhile" |
| `SchedulerProcess.CountOutcome` | timar/jobs.py:162-166 | the three numbers are the numbers of updated, failed and skipped rows |
| `SchedulerProcess.CountsAddUpIff` | timar/jobs.py:162-166 | they add up to the number of rows exactly when no skip is a failure |
| `SchedulerProcess.SummaryAddsUp` | timar/jobs.py:162-166 | and in the report of an update run they do |
| `Schedule.NextRunMatches` | timar/schedule.py:81-118 | a daily or weekly schedule's next run is one of its instants, later than `after` by at most a day or a week |
| `Schedule.NextRunIsLeast` | timar/schedule.py:81-118 | and no earlier instant of the schedule lies after `after` |
| `Schedule.NextRunIsStable` | timar/schedule.py:81-118 | it does not move until it is reached |
| `Schedule.OnePerPeriod` | timar/schedule.py:99-118 | two instants of one schedule less than a period apart are one |
| `Schedule.IntervalIsStable` | timar/schedule.py:92-98 | the due time of an interval job that has run does not move until it is reached, and from then on every look finds it due at once |
| `Schedule.IntervalIsDueIff` | timar/schedule.py:92-98 | an interval job is due at a look exactly when its hours, of 3600 seconds each, have passed since the recorded run; before that the answer is the one instant that far after it |
| `Schedule.IntervalNeedsARecordedRun` | timar/schedule.py:92-98 | there is a moment at which an interval job is due exactly when a run of it is recorded |
| `Schedule.TimeOfDay` | timar/schedule.py:70-78 | an accepted time of day is within the day |
| `Schedule.TimeIsWritten` | timar/schedule.py:70-78 | and it is the two numbers written before and after the one colon |
| `Schedule.MeansWhatItSays` | timar/schedule.py:99-118 | a daily or weekly schedule at "a:b" holds exactly the instants that far into a day, and on the named day of the week |
| `Schedule.HasNextRunIff` | timar/schedule.py:81-118 | there is a next run exactly of an enabled schedule with a readable time and a known day, or an interval of an hour or more; a disabled one never raises |
| `Schedule.AcceptedNeverFails` | timar/validate.py:409-459 | a schedule the form accepts raises at no later instant, survives being written and read back, and then fires at the same instants |
| `Schedule.RefusedWouldFail` | timar/validate.py:409-459 | a schedule the form refuses would have raised at every instant once enabled |
| `JobLoop.Run` | timar/scheduler.py:140-178 | the loop goes through exactly the calls and sleeps of the function `Turns` of its schedule, start and turns |
| `JobLoop.CalledOvertakenOrSleptThrough` | timar/scheduler.py:140-178 | every due instant is called, or overtaken by a running job, or slept through |
| `JobLoop.NoneIsMissedIff` | timar/scheduler.py:160-178 | none is slept through exactly when no turn that has more than a minute to wait overshoots its slice by the rest of the wait |
| `JobLoop.LateByItsOwnTurn` | timar/scheduler.py:160-178 | a call is late by what the sleep of its own turn overshot, or by less than that turn took to look |
| `JobLoop.CalledOnce` | timar/scheduler.py:140-178 | no due instant is called twice |
| `JobLoop.ARunIsSleptThrough` | timar/scheduler.py:160-172 | an execution that misses 09:00, and never calls the job for it however it goes on |
| `UpdateWindow.Parse` | timar/update_window.py:40-48 | a window is accepted exactly when both times are times of day and differ, and then holds those times |
| `UpdateWindow.OpeningIsTheOpenWindow` | timar/update_window.py:51-63 | the opening is the one start with now inside the window, across midnight too, and none exactly when there is no such start |
| `UpdateWindow.OpeningsAreInOrder` | timar/update_window.py:51-63 | later looks find the same opening or a later one |
| `UpdateWindow.Due` | timar/update_window.py:74-108 | the due machines, in config order, each with an open, untried window and not updated too recently |
| `UpdateWindow.PeriodIsExactIffHalfADay` | timar/update_window.py:97-106 | the period is exactly N days for every N, if and only if the window is at most twelve hours |
| `UpdateWindow.NextTurn` | timar/update_window.py:74-108 | a machine updated in window o is, in untried windows from o on, due exactly from o + n days, n being its `update_every_days`, or 7 without one |
| `WindowHistory.UpdatesAreDaysApart` | timar/update_window.py:74-121 | over any ticks of one machine: of two accepted runs the later is in a later window, and after a run that updated the machine there is none for its N days |
| `WindowHistory.RunExactlyWhenFree` | timar/update_window.py:74-121 | from its first run on, a machine is run in exactly those of the windows offered that no update lies less than N days before |
| `WindowHistory.UpdatedAgainOnTheDay` | timar/update_window.py:74-108 | updated in one window and offered a run in the window N days later, it is run in that one next |
| `WindowHistory.RetriedWhenNextOffered` | timar/update_window.py:9-14 | not updated by its run, for whatever reason, it is run again no later than in the next window in which a run is offered |
| `WindowTicks.WindowLoop.UpdatesAreDaysApart` | timar/scheduler.py:180-195 | of the runs the loop has had accepted, no two of one machine are in one window, and after one that updated it none is in a window that opens within n days, n being its `update_every_days`, or 7 without one |
| `WindowTicks.WindowLoop.RunExactlyWhenDue` | timar/scheduler.py:180-195 | where updates are over within twelve hours of the opening: a machine is run in exactly those of the windows offered to it that do not open within those n days of one it was updated in |
| `WindowTicks.WindowLoop.MarkTried` | timar/update_window.py:111-113 | an accepted run's opening is recorded, and is later than those of all earlier runs of the machine |
| `WindowTicks.WindowLoop.RunDue` | timar/jobs.py:136-143 | a refused run changes nothing; an accepted one is a run of that machine, marks the window, dates the machine exactly if it did not raise and did update it, to the second of its end, and leaves the records of all other machines of the loop alone |
| `WindowTicks.WindowLoop.RecordUpdates` | timar/update_window.py:116-121 | exactly the machines with a window that the run updated are dated, to the second |
| `WindowTicks.WindowLoop.Tick` | timar/scheduler.py:180-195 | the due machines are tried once each, in config order; exactly those whose run is accepted are run, each with what it meets, and marked as tried in the open window; and the record and the runs of every machine stay what its history makes of an empty record |
| `WindowTicks.WindowLoop.FleetRun` | timar/updater.py:596-629 | a run of the fleet in between dates exactly the machines with a window that it updated, and no machine of the loop but timar's own host |
| `OnDemand.OnDemandLoop` | timar/config.py:143-192 | the loops terminate on any graph and compute the specified reasons |
| `OnDemand.DomainIsLeast` | timar/config.py:174-192 | the machines expected off are the least set holding the seeds and closed under hypervisor-to-guest |
| `OnDemand.OrderDoesNotMatter` | timar/config.py:174-192 | which machines are expected off does not depend on config order |
| `OnDemand.SameReasons` | timar/config.py:174-192 | where no guest has two hypervisors, the links, wake addresses and flags decide the reasons, whatever their order |
| `OnDemand.ReasonPrecedence` | timar/config.py:174-192 | the reason is the wake address, else the first guest flag, else manual, else a hypervisor itself expected off |
| `OnDemand.ReasonsLeadToASeed` | timar/config.py:183-192 | following inherited reasons reaches a seed, on cyclic configurations too |
| `OnDemand.TextIsUnambiguous` | timar/config.py:174-192 | the written reasons tell hypervisor h apart from the others exactly when h is neither "wol" nor "(manual)" |
| `Rename.OnDemandRenamed` | timar/web/settings.py:214-226 | after a rename to a fresh name the machines expected off, and their reasons, are the old ones under the new name |
| `Rename.CanWakeRenamed` | timar/config.py:129-140 | and so is what timar can power on; the old name cannot be |
| `Power.Wakeable` | timar/status.py:193-210 | true exactly when the recursive wake ends, and ends in a running hypervisor or a magic packet; then within as many calls as there are servers |
| `Power.CircleNeverEnds` | timar/power.py:115-131 | a wake that comes back to a machine of its own path never ends |
| `Power.MoreCalls` | timar/power.py:164-198 | a wake that has ended ends the same way whatever more it is given |
| `Power.ParentIsTheLink` | timar/status.py:150-190 | with one hypervisor per guest the dashboard's parent map and the wake's first match agree |
| `WakeBoard.EveryInterleaving` | timar/power.py:134-190 | in every interleaving of presses, threads and looks: the chains in flight are disjoint, `waking` is exactly their names, an ended chain holds none, and the message of a failed one can be seen unless it is too old or its guest was woken again since, and no other message can |
| `WakeBoard.FailedChainTells` | timar/power.py:134-161 | once a thread has recorded its failure, no press and no other thread removes the message while it is in flight; it leaves with it |
| `WakeBoard.ToldKept` | timar/power.py:134-190 | the step of that: only age takes away the message of a chain in flight |
| `WakeBoard.ShownIffLastFailed` | timar/power.py:134-161 | once the old ones are dropped, a guest has a message exactly when its last wake failed, no more than ten minutes ago, and it is that wake's |
| `WakeBoard.Board.RunChain` | timar/power.py:134-146 | a thread whose wake raised records its message and then leaves, one whose wake did not only leaves; its names are gone either way |
| `WakeBoard.Board.Press` | timar/power.py:181-190 | refused exactly when one of the two names is in flight, else the step of the machine |
| `WakeBoard.Board.Failures` | timar/power.py:155-161 | what is shown of each guest is the message of its last wake, if that failed no more than ten minutes ago, and nothing else |
| `WakeBoard.LeavingClearsOnlyItsOwn` | timar/power.py:134-152 | with disjoint chains, the set without one chain's names is the union of the others' |
| `WakeBoard.JoiningKeepsApart` | timar/power.py:181-190 | a press whose names are free keeps the chains disjoint |
| `Settings.HistoryKeepsWellFormed` | timar/web/settings.py:276-373 | any history of adds, edits, renames, deletes and leavings-out keeps names unique, each guest under one hypervisor, no server managing itself, VM ids unique per hypervisor, and all references configured |
| `Settings.WellFormedIsOrderly` | timar/validate.py:264-319 | in such a fleet each machine is configured once, and started by one hypervisor, once |
| `Settings.ChangeKeepsWellFormed` | timar/web/settings.py:276-373 | one request keeps that exactly when it is not the edit of a vanished server that names a hypervisor |
| `Settings.EditKeepsWellFormed` | timar/web/settings.py:299-315 | replacing a server, renamed or not, keeps it |
| `Settings.EditCarriesHandWritten` | timar/web/settings.py:229-249 | keys the form does not own are carried across, and every other server keeps all but its references to the edited one |
| `Settings.GuestsAfterEdit` | timar/web/settings.py:252-272 | which guests a server is left with, exactly |
| `Settings.LinkIsSound` | timar/validate.py:264-319 | an accepted link is the hypervisor and the VM id of the form: another configured Proxmox server, and an id no other guest has there |
| `Settings.SavedAsTyped` | timar/web/settings.py:288-318 | the saved entry holds the form's name, address, platform, command and wake address, and the box of a standalone machine |
| `Settings.ProjectsFollowTheRename` | timar/web/settings.py:303-308 | a rename takes the server's compose projects along, those on either name being on the new one, in order, and none on the old; no other server's change, and no other request changes any |
| `Settings.ProjectKeepsAServer` | timar/web/settings.py:276-373 | no request but the delete of its server leaves a project without a configured one |
| `Settings.HistoryKeepsProjects` | timar/web/settings.py:276-373 | nor any history of them, and nothing else about a project changes |
| `Settings.StandingFollows` | timar/membership.py:127-136 | after any save or delete, who is left out of a job is who was, a renamed server under its new name |
| `Settings.RenameIsSubstitution` | timar/web/settings.py:299-305 | renaming rewrites the fleet exactly as substituting the name does |
| `PageRename.RenameIsRelinkIff` | timar/web/settings.py:299-318 | a rename on the page saves the renamed fleet, up to the place of one guest in its list, exactly when the form repeats the stored hypervisor, VM id and box |
| `PageRename.RenameKeepsMeaning` | timar/web/settings.py:299-318 | and then the saved fleet keeps who is expected off, why, and what can be powered on |
| `RenameReasons.RenameKeepsReasonsIff` | timar/web/settings.py:299-318 | of any rename: who is expected off, and why, stays exactly when the server's own reason is the same by the form's link as by the stored one, given what is expected off with no link to it |
| `PageRename.RenameKeepsWakesIff` | timar/web/settings.py:299-318 | of any rename: what can be powered on stays exactly when the server has a wake address, or the form names a hypervisor just when it had one |
| `PageRename.RenamedGuestIsStranded` | timar/web/settings.py:299-318 | a guest renamed with the hypervisor left blank, which nothing can start any more |
| `Settings.AddIsEdit` | timar/web/settings.py:310-315 | adding is appending and then saving the form for the new server |
| `Settings.AddKeepsWellFormed` | timar/web/settings.py:310-315 | an accepted add keeps the fleet well formed |
| `Settings.DeleteKeepsWellFormed` | timar/web/settings.py:355-373 | a delete does, and the name is gone |
| `Settings.SetExcludedIsRight` | timar/membership.py:114-124 | leaving a server out or taking it back changes its standing in that job alone |
| `Settings.SortedSetIsSorted` | timar/membership.py:114-124 | the stored list is ascending, without duplicates, with the same names |
| `Settings.ReplacedNames` | timar/membership.py:127-130 | a rename in a job's list replaces that one name |
| `Settings.RemovedNames` | timar/membership.py:133-136 | forgetting removes that one name |
| `Settings.VanishedEdit` | timar/web/settings.py:299-315 | an edit whose original has gone keeps the fleet well formed exactly when it names no hypervisor |
| `SettingsPages.Store.SaveServer` | timar/web/settings.py:276-321 | saved exactly when the form passes, and the stored servers, projects and job lists are then those of the specification |
| `SettingsPages.Store.RenameReferences` | timar/web/settings.py:214-226 | every guest entry and relay that names the server is rewritten, nothing else |
| `SettingsPages.Store.RelinkGuest` | timar/web/settings.py:252-272 | the machine is out of every guest list but the linked hypervisor's |
| `SettingsPages.Store.DeleteServer` | timar/web/settings.py:355-373 | the server, and the guest entries and job lists that name it, are gone |
| `SettingsPages.Store.SetExcluded` | timar/web/settings.py:553-565 | refused for a server that is not configured |
| `Markup.TagsOfSum` | timar/notify.py:41-54 | text whose tags are complete is scanned the same whatever follows it |
| `Markup.TrackIsGood` | timar/notify.py:47-54 | the open tags found in a line reopen as themselves and are together no longer than the line |
| `Markup.OpeningOpens` | timar/notify.py:61-62 | reopening builds the stack of open tags from nothing |
| `Markup.ClosingCloses` | timar/notify.py:57-58 | closing takes it down to nothing |
| `Notify.LinesJoin` | timar/notify.py:88-93 | splitting at newlines and joining gives the text back |
| `Notify.FitLeavesNoHalf` | timar/notify.py:65-69 | escaped text cut anywhere and trimmed holds no half tag and no half entity |
| `Notify.FitCutsOnlyAHalf` | timar/notify.py:65-69 | and a cut line loses beyond the cut exactly the half tag or half entity there |
| `Notify.FittedIsTidy` | timar/notify.py:65-69 | so does every fitted line, whatever room it is given |
| `Chunks.OpeningFits` | timar/notify.py:86-93 | reopened tags never take up the slack, so there is always room for a line |
| `Chunks.Split` | timar/notify.py:72-102 | every chunk is at most 4096 characters while the open tags close in at most 64; the chunks are the lines in order, blank ones aside, each reopening what the one before closed; and a chunk is closed only when the next line would overflow it |
| `Chunks.ChunksAreBalanced` | timar/notify.py:72-102 | where no line is over-long, every chunk of properly nested text is balanced on its own, and between the added tags stand all non-blank lines in order |
| `Chunks.ChunksAreWhole` | timar/notify.py:72-102 | even where lines are cut, no chunk of escaped text holds half a tag |
| `Lockout.Guard.Verify` | timar/web/auth.py:135-161 | refused exactly while a whole second of the lock is left, for a key that lost nothing to the cap exactly when an uncapped table would refuse; and the whole new table |
| `Lockout.Guard.LockedExactly` | timar/web/auth.py:101-161 | of a key that lost nothing to the cap: refused exactly when its unbroken streak of wrong passwords is a multiple of five and the last is at most 299 seconds ago |
| `Lockout.LockedExactlyAfterFive` | timar/web/auth.py:101-132 | the same of any times of failures a guarded key can have, streaks broken by 300 seconds without one |
| `Lockout.Guard.RecordFailure` | timar/web/auth.py:117-132 | the table never exceeds the cap; only stale records and, from a full table, the oldest live ones go |
| `Lockout.Guard.RateBound` | timar/web/auth.py:101-132 | between successes and evictions, at most five wrong passwords of a key are checked in any closed 299 seconds |
| `Lockout.AtMostFive` | timar/web/auth.py:117-132 | what the invariant on six consecutive failures means for every interval |
| `Lockout.AgreeForEver` | timar/web/auth.py:117-132 | dropping a stale record is unobservable: every later decision and count is the same |
| `Lockout.TrackStep` | timar/web/auth.py:101-132 | one more counted failure keeps any six more than 299 seconds apart |
| `Lockout.LockHoldsUntilItsLastSecond` | timar/web/auth.py:101-105 | the lock refuses exactly while at least one second is left |
| `Lockout.AtMostFiveIff` | timar/web/auth.py:101-132 | of one key's checked wrong passwords at most five fall in every closed interval of L seconds, exactly when L is at most 299 |
| `Alerts.Watcher.Watch` | timar/alerts.py:57-97 | the new table, queue and fate of every message, exactly; each leaves by a successful send or the cap of fifty |
| `Alerts.Watcher.Note` | timar/alerts.py:70-87 | one host of a look: its entry and its message, nobody else's |
| `Alerts.Watcher.ToldOnlyAfterTheGrace` | timar/alerts.py:70-80 | a host is reported down only when every look over the whole grace saw it down |
| `Alerts.Watcher.ToldOnceTheGraceIsOver` | timar/alerts.py:70-80 | and it is reported once that is so: one that every look over the grace saw down, the last among them, has been told, dated to the first of them or before, and not taken back |
| `Alerts.Watcher.ConfiguredHostsAlternate` | timar/alerts.py:57-97 | while configured, a host's messages alternate down and back starting with down, each pair about one outage |
| `Alerts.HostsAlternate` | timar/alerts.py:57-97 | the same of every host, where being removed from the config ends an outage without a message |
| `Alerts.EachHostOnItsOwn` | timar/alerts.py:70-87 | no host's entry depends on another's |
| `Reports.NamesInOrder` | timar/reports.py:53-71 | the names of a job's files are in the order of their times |
| `Reports.SuffixNamesTheJob` | timar/reports.py:125-135 | a name ends in a job's suffix exactly when the file is that job's |
| `Reports.TopOnTheWay` | timar/reports.py:107-122 | keeping the latest as entries come in, in any order, is keeping the latest of them all |
| `Reports.TopNamesAreLatest` | timar/reports.py:107-135 | the top names are those of the latest times |
| `Reports.Archive.Add` | timar/reports.py:73-104 | one more report keeps that of every job, and other jobs' files are untouched |
| `Reports.Archive.Prune` | timar/reports.py:107-122 | what goes is exactly the job's surplus |
| `Reports.Archive.Files` | timar/reports.py:125-135 | the job's files, newest name first |
| `Reports.Archive.KeepsTheLatest` | timar/reports.py:53-135 | the files of a job are exactly the 400 latest ever archived for it |
| `Text.DigitsInOrder` | timar/reports.py:53-59 | in a fixed width the order of the strings is that of the numbers |

## Left out

- SSH, sockets, HTTP, Telegram, the LLM, shell and PowerShell commands, HTML, translations, logging:
  they are answers of the environment, events, or nothing.
- bcrypt, cookies and key generation: only the bookkeeping of the lockout is modelled, with the
  answer of the password check as a parameter.
- File failures and interleaved writes: each call into the state file is one atomic, successful step,
  although the source writes it from the event loop and from worker threads without a lock.
- Malformed or duplicate hand-written entries, time zone changes, and a clock that runs backwards.
- `Lifecycle.ReconcileOne`: a start time that is missing from the state file or cannot be read.
- `JobLoop.Run`: no sleep ends early, and time passes only where the source waits or works.
- asyncio's order of tasks: the finisher of a hand-off takes its lock before any other task runs.
- The regular expressions and `int()` on form and config text: their results are parameters
  (`Schedule`, `UpdateWindow`, `Settings.IdText`); the tag scanner of `notify` is modelled in full.
- Progress of an interval job that is refused while overdue: the loop retries it at once.
- `Updater.Run.UpdateServer`: not one row per machine; an exception in the compose projects after the
  host's row leaves two.
- `Updater.Run.UpdateGuests`: a guest that never came up after `qm start` is not shut down again; the
  source does not do it.
- `Updater.Run.UpdateSelf`: a stop does not prevent the hand-off once the own host's step has begun.
- `Updater.Run.WakeAndWait`: the length of the waits, the login grace and the relay a packet goes
  through; a wait ends with either answer.
- `Updater.Run.RunUpdateCommand`: what the command wrote for a note or an error is the world's; only
  the restart notes of the run are spelled out.
- `Chunks.ChunksAreBalanced`: says nothing about balance when a line was cut, since the cut may lose
  a closing tag; `Chunks.ChunksAreWhole` is what holds then.
- `Chunks.Split`: the bound needs the open tags to close within the slack, as the source's comment
  on the slack assumes.
- `Notify.FitLeavesNoHalf`: a tag that itself holds an unescaped `&` can still be cut in half.
- `Lockout.Guard.Verify`: one call is atomic, as the login handler never yields inside it; among
  equally old records any may be evicted.
- `Settings.DeleteKeepsWellFormed`: compose projects and wake relays that name a deleted server are
  not cleaned up by the source.
- `SettingsPages.Store.SaveServer`: the checks on single fields (address, MAC, URL, timeouts) are taken
  as passed.
- `WindowTicks.WindowLoop.Tick`: which runs are accepted is a parameter, and the configuration is the
  same at every tick.
- `WindowTicks.WindowLoop.RunExactlyWhenDue`: where timar itself runs on a machine with a window, the
  fleet's runs update it too; that machine is outside the history.
- `Updater.Run.RunOnly`: a machine that lists itself as its guest, which the settings pages refuse.
- `WakeBoard.Board.RunChain`: the wake itself is not modelled, only how it ended and what it books.
- `SchedulerProcess.Scheduler.RunUpdateJob`: written without the other jobs' steps in between, and with
  the hand-off put on disk once the worker returns, where the source does it before the wait; `Lifecycle`
  interleaves all of these steps, crashes included.
- `Reports.Archive.Add`: the contents of a report, and unreadable or foreign files.
- The nesting and sorting of the dashboard, the lists on the job page, and log sweeps.
