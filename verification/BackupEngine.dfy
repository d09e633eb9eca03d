/** The managed backup engine as a system of atomic steps.

    Every `mutate` is one step on the committed journal; the stretches between them (executing,
    verifying, removing, restoring, downloading, configuring the remote store) are tasks that are
    open until their own step closes them.  The flags are the engine's; `tasks` and `downloads`
    record what is really going on, so that the flags can be held against it.  `stranded` records
    that a step of accepted work was refused, and `unheard` that the late success of a restore was:
    that one event may be due when nothing is active any more that room is kept for. */
module BackupEngine {
  import opened Durability
  import opened BackupJournal
  import opened BackupRetention

  const SAFE_INTEGER := 0x1F_FFFF_FFFF_FFFF

  /** The configured reservation: three lifecycle events and 50 removals. */
  const JOB_EVENTS := 53

  datatype Kind =
    | JobRequested | JobStarted | JobSucceeded | JobFailed | JobInterrupted | JobPruned
    | ConfigurationUpdated | OffHostUpdated
    | DeleteRequested | Deleted | DeleteFailed
    | RestoreRequested | RestoreStarted | RestoreSucceeded | RestoreFailed | RestoreInterrupted

  datatype Event = Event(sequence: nat, kind: Kind, job: Option<nat>)

  datatype Phase = Early | Restarting | Finished

  datatype Maintenance = Maintenance(target: nat, restore: bool, state: JobState, phase: Phase, percent: nat)

  datatype Configuration = Configuration(revision: nat, enabled: bool, hours: nat, retention: nat, next: Option<nat>)

  datatype Journal = Journal(
    jobs: seq<Job>,
    events: seq<Event>,
    acknowledged: nat,
    configuration: Configuration,
    maintenance: Option<Maintenance>)

  datatype Task = Backup(id: nat) | Pruning(id: nat) | Removing(id: nat, candidate: nat) | Maintaining | Recovering

  /** How far a change of the remote store has got. */
  datatype Change = NoChange | Asked | Allowed | Closing

  /** `jobEvents` is the policy in force, which no step changes. */
  datatype Engine = Engine(
    jobEvents: nat,
    journal: Journal,
    executing: bool,
    tasks: seq<Task>,
    downloading: bool,
    downloads: nat,
    change: Change,
    blocked: bool,
    reconciling: bool,
    pending: bool,
    recorded: bool,
    clock: nat,
    slots: seq<nat>,
    stranded: bool,
    unheard: bool)

  // ---------- The journal ----------

  function Last(j: Journal): nat {
    if j.events == [] then j.acknowledged else j.events[|j.events| - 1].sequence
  }

  /** How many more events the journal takes: `hasAuditRoom(n)` is `n <= Room`. */
  function Room(j: Journal): int {
    var slots, numbers := CAPACITY - |j.events|, SAFE_INTEGER - Last(j);
    if slots < numbers then slots else numbers
  }

  /** Published events are neither rewritten nor dropped, only followed by others. */
  ghost predicate Appends(a: Journal, b: Journal) {
    a.acknowledged == b.acknowledged && a.events <= b.events
  }

  function Audit(j: Journal, kind: Kind, job: Option<nat>): (r: Option<Journal>)
    ensures r.Some? <==> Room(j) >= 1
    ensures r.Some? ==> Appends(j, r.value)
  {
    if Room(j) < 1 then None else Some(j.(events := j.events + [Event(Last(j) + 1, kind, job)]))
  }

  predicate MaintenanceActive(j: Journal) {
    j.maintenance.Some? && (j.maintenance.value.state == Queued || j.maintenance.value.state == Running)
  }

  /** A restore that a later boot may still find to have succeeded. */
  predicate Recoverable(j: Journal) {
    && j.maintenance.Some? && j.maintenance.value.restore
    && j.maintenance.value.phase == Restarting && j.maintenance.value.percent >= 90
    && (j.maintenance.value.state == Failed || j.maintenance.value.state == Interrupted)
  }

  predicate AnyActive(j: Journal) {
    Tally(Works, j.jobs) > 0
  }

  function Milliseconds(hours: nat): nat {
    hours * 3_600_000
  }

  // ---------- The steps ----------

  predicate OffHostBusy(e: Engine) {
    e.change != NoChange || e.blocked || e.reconciling
  }

  /** `admit`: room for the whole job, then a trimmed list with the new job queued. */
  function Admitted(e: Engine, id: nat, slot: Option<nat>): (r: Option<Journal>)
    ensures r.Some? ==> Appends(e.journal, r.value)
  {
    var j := e.journal;
    if OffHostBusy(e) || e.executing || e.downloading || MaintenanceActive(j) || AnyActive(j) then None
    else if Room(j) < e.jobEvents then None
    else
      var kept := Trimmed(j.jobs, JOBS_LIMIT - 1);
      if kept.None? || IndexOf(kept.value, id) < |kept.value| then None
      else Audit(j.(jobs := kept.value + [Job(id, slot, Queued, None, Unreplicated, false)]), JobRequested, Some(id))
  }

  function Start(e: Engine, id: nat): (r: Engine)
    ensures Appends(e.journal, r.journal) && r.jobEvents == e.jobEvents && r.unheard == e.unheard
  {
    var r := Admitted(e, id, None);
    if r.None? then e else e.(journal := r.value)
  }

  /** The next scheduled time after an admission of the slot `due`. */
  function NextRun(due: nat, now: nat, interval: nat): nat
    requires due <= now && interval > 0
  {
    due + ((now - due) / interval + 1) * interval
  }

  /** The queued job `i` set running. */
  function Begun(j: Journal, i: nat): (r: Option<Journal>)
    requires i < |j.jobs|
    ensures r.Some? ==> Appends(j, r.value)
  {
    Audit(j.(jobs := j.jobs[i := j.jobs[i].(state := Running)]), JobStarted, Some(j.jobs[i].id))
  }

  function Begin(e: Engine, j: Journal, i: nat, slots: seq<nat>): (r: Engine)
    requires i < |j.jobs|
    ensures Appends(e.journal, j) ==> Appends(e.journal, r.journal)
    ensures r.jobEvents == e.jobEvents && r.unheard == e.unheard
  {
    var r := Begun(j, i);
    if r.None? then e.(stranded := true)
    else e.(journal := r.value, executing := true, tasks := e.tasks + [Backup(j.jobs[i].id)], slots := slots)
  }

  predicate IsDue(c: Configuration, now: nat) {
    c.enabled && c.next.Some? && c.next.value <= now && c.hours > 0
  }

  /** The step of `tick` that takes up a queued job, or admits the slot that is due. */
  function Launch(e: Engine, id: nat): (r: Engine)
    ensures Appends(e.journal, r.journal) && r.jobEvents == e.jobEvents && r.unheard == e.unheard
  {
    var j := e.journal;
    if e.executing || OffHostBusy(e) || e.downloading || MaintenanceActive(j) || First(Runs, j.jobs) < |j.jobs| then e
    else if First(Waits, j.jobs) < |j.jobs| then Begin(e, j, First(Waits, j.jobs), e.slots)
    else if IsDue(j.configuration, e.clock) then
      var due := j.configuration.next.value;
      var r := Admitted(e, id, Some(due));
      if r.None? || r.value.jobs == [] then e
      else
        var next := NextRun(due, e.clock, Milliseconds(j.configuration.hours));
        var draft := r.value.(configuration := r.value.configuration.(next := Some(next)));
        Begin(e, draft, |draft.jobs| - 1, e.slots + [due])
    else e
  }

  /** `finally`: the task ends and the flag is cleared. */
  function Close(e: Engine, t: nat): (r: Engine)
    requires t < |e.tasks|
    ensures r.journal == e.journal && r.jobEvents == e.jobEvents && r.unheard == e.unheard
  {
    e.(executing := false, tasks := e.tasks[..t] + e.tasks[t + 1..])
  }

  /** The task ends because one of its own steps was refused. */
  function Strand(e: Engine, t: nat): (r: Engine)
    requires t < |e.tasks|
    ensures r.journal == e.journal && r.jobEvents == e.jobEvents && r.unheard == e.unheard
  {
    Close(e, t).(stranded := true)
  }

  function Completed(j: Journal, k: nat, ok: bool, artifact: Option<nat>, remote: Remote): (r: Option<Journal>)
    requires k < |j.jobs|
    ensures r.Some? ==> Appends(j, r.value)
  {
    var retained := ok && Tally(Retains, j.jobs) < RETAINED_LIMIT;
    var state := if ok then Succeeded else Failed;
    var job := j.jobs[k].(artifact := artifact, remote := remote, state := state, retained := retained);
    var r := Audit(j.(jobs := j.jobs[k := job]), if ok then JobSucceeded else JobFailed, Some(job.id));
    if r.None? || Trimmed(r.value.jobs, JOBS_LIMIT).None? then None
    else Some(r.value.(jobs := Trimmed(r.value.jobs, JOBS_LIMIT).value))
  }

  function Complete(e: Engine, t: nat, ok: bool, artifact: Option<nat>, remote: Remote): (r: Engine)
    ensures Appends(e.journal, r.journal) && r.jobEvents == e.jobEvents && r.unheard == e.unheard
  {
    if t >= |e.tasks| || !e.tasks[t].Backup? then e
    else
      var k := IndexOf(e.journal.jobs, e.tasks[t].id);
      if k == |e.journal.jobs| then Strand(e, t)
      else
        var r := Completed(e.journal, k, ok, artifact, remote);
        if r.None? then Strand(e, t)
        else if ok then e.(journal := r.value, tasks := e.tasks[t := Pruning(e.tasks[t].id)])
        else Close(e, t).(journal := r.value)
  }

  /** A removal is dispatched by the plan over the committed state. */
  function Dispatched(e: Engine, t: nat): (r: Engine)
    ensures Appends(e.journal, r.journal) && r.jobEvents == e.jobEvents && r.unheard == e.unheard
  {
    hide Plan, Strand;
    if t >= |e.tasks| || !e.tasks[t].Pruning? then e
    else
      var p := Plan(e.journal.jobs, e.tasks[t].id, e.journal.configuration.retention);
      if p == Invalid then Strand(e, t)
      else if p == Enough then e
      else e.(tasks := e.tasks[t := Removing(e.tasks[t].id, p.candidate.id)])
  }

  predicate Removable(jobs: seq<Job>, id: nat, candidate: nat) {
    var c, r := IndexOf(jobs, candidate), IndexOf(jobs, id);
    && c < |jobs| && jobs[c].state == Succeeded && jobs[c].retained
    && r < |jobs| && jobs[r].state == Succeeded
  }

  function RemovalRecorded(j: Journal, id: nat, candidate: nat): (r: Option<Journal>)
    ensures r.Some? ==> Appends(j, r.value)
  {
    Audit(j.(jobs := Pruned(j.jobs, candidate, id)), JobPruned, Some(candidate))
  }

  /** A completed removal is acknowledged. */
  function AcknowledgeRemoval(e: Engine, t: nat): (r: Engine)
    ensures Appends(e.journal, r.journal) && r.jobEvents == e.jobEvents && r.unheard == e.unheard
  {
    hide Removable, RemovalRecorded, Close, Strand;
    if t >= |e.tasks| || !e.tasks[t].Removing? then e
    else
      var j, id, candidate := e.journal, e.tasks[t].id, e.tasks[t].candidate;
      if !Removable(j.jobs, id, candidate) then Strand(e, t)
      else
        var r := RemovalRecorded(j, id, candidate);
        if r.None? then Strand(e, t)
        else e.(journal := r.value, tasks := e.tasks[t := Pruning(id)])
  }

  /** The last step of a successful backup. */
  function Settle(e: Engine, t: nat): (r: Engine)
    ensures Appends(e.journal, r.journal) && r.jobEvents == e.jobEvents && r.unheard == e.unheard
  {
    if t >= |e.tasks| || !(e.tasks[t].Pruning? || e.tasks[t].Removing?) then e
    else
      var j, id := e.journal, e.tasks[t].id;
      var k := IndexOf(j.jobs, id);
      if k == |j.jobs| || j.jobs[k].state != Succeeded then Strand(e, t)
      else Close(e, t).(journal := j.(jobs := Held(j.jobs, id)))
  }

  /** A failed write ends a task without its step. */
  function Abort(e: Engine, t: nat): (r: Engine)
    ensures Appends(e.journal, r.journal) && r.jobEvents == e.jobEvents && r.unheard == e.unheard
  {
    if t >= |e.tasks| then e else Close(e, t)
  }

  /** `updateConfiguration`: it leaves the room that accepted work may still need. */
  function Update(e: Engine, expected: nat, enabled: bool, hours: nat, retention: nat): (r: Engine)
    ensures Appends(e.journal, r.journal) && r.jobEvents == e.jobEvents && r.unheard == e.unheard
  {
    var j, c := e.journal, e.journal.configuration;
    var reserved := if e.executing || AnyActive(j) then e.jobEvents - 1 else if MaintenanceActive(j) then 4 else 0;
    if !(1 <= hours <= 8760 && 1 <= retention <= 50) then e
    else if OffHostBusy(e) || Room(j) < 1 + reserved || expected != c.revision then e
    else
      var rescheduled := enabled != c.enabled || hours != c.hours;
      var next := if !enabled then None else if rescheduled then Some(e.clock + Milliseconds(hours)) else c.next;
      var draft := j.(configuration := Configuration(c.revision + 1, enabled, hours, retention, next));
      var r := Audit(draft, ConfigurationUpdated, None);
      if r.None? then e else e.(journal := r.value)
  }

  function After(events: seq<Event>, n: nat): seq<Event> {
    if events == [] then []
    else (if events[0].sequence > n then [events[0]] else []) + After(events[1..], n)
  }

  predicate Holds(events: seq<Event>, n: nat) {
    exists i :: 0 <= i < |events| && events[i].sequence == n
  }

  /** `acknowledgeAudit`. */
  function Acknowledge(e: Engine, n: nat): Engine {
    var j := e.journal;
    if n > Last(j) || n <= j.acknowledged || !Holds(j.events, n) then e
    else e.(journal := j.(acknowledged := n, events := After(j.events, n)))
  }

  function RequestMaintenance(e: Engine, target: nat, restore: bool): (r: Engine)
    ensures Appends(e.journal, r.journal) && r.jobEvents == e.jobEvents && r.unheard == e.unheard
  {
    var j := e.journal;
    var k := IndexOf(j.jobs, target);
    if OffHostBusy(e) || e.executing || e.downloading || MaintenanceActive(j) || AnyActive(j) then e
    else if k == |j.jobs| || Active(j.jobs[k]) then e
    else if restore && (j.jobs[k].state != Succeeded || !j.jobs[k].retained) then e
    else if Room(j) < 4 then e
    else
      var m := Maintenance(target, restore, Queued, Early, 0);
      var r := Audit(j.(maintenance := Some(m)), if restore then RestoreRequested else DeleteRequested, Some(target));
      if r.None? then e else e.(journal := r.value)
  }

  function RunMaintenance(e: Engine): (r: Engine)
    ensures Appends(e.journal, r.journal) && r.jobEvents == e.jobEvents && r.unheard == e.unheard
  {
    var j := e.journal;
    if OffHostBusy(e) || e.executing || e.downloading || j.maintenance.None? ||
       j.maintenance.value.state != Queued then e
    else
      var queued := j.maintenance.value;
      var m := queued.(state := Running, percent := if queued.restore then 1 else queued.percent);
      if IndexOf(j.jobs, m.target) == |j.jobs| then e.(stranded := true)
      else
        var draft := j.(maintenance := Some(m));
        var r := if m.restore then Audit(draft, RestoreStarted, Some(m.target)) else Some(draft);
        if r.None? then e.(stranded := true)
        else e.(journal := r.value, executing := true, tasks := e.tasks + [Maintaining])
  }

  /** A restore reports its progress. */
  function Progress(e: Engine, t: nat, phase: Phase, percent: nat): (r: Engine)
    ensures Appends(e.journal, r.journal) && r.jobEvents == e.jobEvents && r.unheard == e.unheard
  {
    if t >= |e.tasks| || e.tasks[t] != Maintaining || e.journal.maintenance.None? then e
    else
      var m := e.journal.maintenance.value;
      if !m.restore || m.state != Running || phase == Finished || !(m.percent <= percent < 100) then e
      else e.(journal := e.journal.(maintenance := Some(m.(phase := phase, percent := percent))))
  }

  /** The job that an event names, if it is still listed. */
  function Listed(jobs: seq<Job>, id: nat): Option<nat> {
    if IndexOf(jobs, id) < |jobs| then Some(id) else None
  }

  function Ended(j: Journal, m: Maintenance, ok: bool): (r: Option<Journal>)
    ensures r.Some? ==> Appends(j, r.value)
  {
    var done := m.(state := if ok then Succeeded else Failed,
                   phase := if ok then Finished else m.phase,
                   percent := if ok then 100 else m.percent);
    var kind :=
      if m.restore then if ok then RestoreSucceeded else RestoreFailed
      else if ok then Deleted else DeleteFailed;
    var r := Audit(j.(maintenance := Some(done)), kind, Listed(j.jobs, m.target));
    if r.None? || m.restore || !ok then r else Some(r.value.(jobs := Without(j.jobs, m.target)))
  }

  function Without(jobs: seq<Job>, id: nat): seq<Job> {
    var k := IndexOf(jobs, id);
    if k == |jobs| then jobs else jobs[..k] + jobs[k + 1..]
  }

  function FinishMaintenance(e: Engine, t: nat, ok: bool): (r: Engine)
    ensures Appends(e.journal, r.journal) && r.jobEvents == e.jobEvents && r.unheard == e.unheard
  {
    if t >= |e.tasks| || e.tasks[t] != Maintaining then e
    else if e.journal.maintenance.None? then Strand(e, t)
    else
      var r := Ended(e.journal, e.journal.maintenance.value, ok);
      if r.None? then Strand(e, t) else Close(e, t).(journal := r.value)
  }

  /** A boot that completed an earlier restore is being proved ready. */
  function BeginRecovery(e: Engine): (r: Engine)
    ensures Appends(e.journal, r.journal) && r.jobEvents == e.jobEvents && r.unheard == e.unheard
  {
    if e.executing || e.downloading || OffHostBusy(e) || !Recoverable(e.journal) then e
    else e.(executing := true, tasks := e.tasks + [Recovering])
  }

  function EndRecovery(e: Engine, t: nat, ok: bool): (r: Engine)
    ensures Appends(e.journal, r.journal) && r.jobEvents == e.jobEvents
    ensures r.unheard == e.unheard || (r.unheard && r.journal == e.journal)
  {
    hide Close, Audit, Listed;
    if t >= |e.tasks| || e.tasks[t] != Recovering then e
    else if !ok || !Recoverable(e.journal) then Close(e, t)
    else
      var m := e.journal.maintenance.value;
      var done := m.(state := Succeeded, phase := Finished, percent := 100);
      var r := Audit(e.journal.(maintenance := Some(done)), RestoreSucceeded, Listed(e.journal.jobs, m.target));
      if r.None? then Close(e, t).(unheard := true) else Close(e, t).(journal := r.value)
  }

  function AcquireDownload(e: Engine): (r: Engine)
    ensures Appends(e.journal, r.journal) && r.jobEvents == e.jobEvents && r.unheard == e.unheard
  {
    if OffHostBusy(e) || e.executing || e.downloading || MaintenanceActive(e.journal) || AnyActive(e.journal) then e
    else e.(downloading := true, downloads := e.downloads + 1)
  }

  function ReleaseDownload(e: Engine): (r: Engine)
    ensures Appends(e.journal, r.journal) && r.jobEvents == e.jobEvents && r.unheard == e.unheard
  {
    if e.downloads == 0 then e else e.(downloading := false, downloads := e.downloads - 1)
  }

  // The remote store: asked for, allowed by a step of the chain, changed, then reconciled.

  function AskChange(e: Engine): (r: Engine)
    ensures Appends(e.journal, r.journal) && r.jobEvents == e.jobEvents && r.unheard == e.unheard
  {
    if e.change != NoChange || e.reconciling || e.executing || e.downloading ||
       MaintenanceActive(e.journal) || AnyActive(e.journal)
    then e else e.(change := Asked)
  }

  function AllowChange(e: Engine): (r: Engine)
    ensures Appends(e.journal, r.journal) && r.jobEvents == e.jobEvents && r.unheard == e.unheard
  {
    if e.change != Asked || e.reconciling then e
    else if e.blocked || e.executing || e.downloading || MaintenanceActive(e.journal) || AnyActive(e.journal) ||
       Room(e.journal) < 1
    then e.(change := NoChange)
    else e.(change := Allowed)
  }

  /** The source commits a change and keeps one pending record of it. */
  function ChangeStore(e: Engine): (r: Engine)
    ensures Appends(e.journal, r.journal) && r.jobEvents == e.jobEvents && r.unheard == e.unheard
  {
    if e.change != Allowed || e.pending then e else e.(pending := true, recorded := false)
  }

  function StartReconcile(e: Engine): (r: Engine)
    ensures Appends(e.journal, r.journal) && r.jobEvents == e.jobEvents && r.unheard == e.unheard
  {
    if e.reconciling || e.change == Closing || (e.change == NoChange && !e.blocked) then e
    else e.(blocked := true, reconciling := true, change := if e.change == Allowed then Closing else e.change)
  }

  function RecordChange(e: Engine): (r: Engine)
    ensures Appends(e.journal, r.journal) && r.jobEvents == e.jobEvents && r.unheard == e.unheard
  {
    if !e.reconciling || !e.pending || e.recorded then e
    else
      var r := Audit(e.journal, OffHostUpdated, None);
      if r.None? then e.(stranded := true) else e.(journal := r.value, recorded := true)
  }

  /** The source is acknowledged, or some call failed; an acknowledgement may fail after it took effect. */
  function EndReconcile(e: Engine, ok: bool, took: bool): (r: Engine)
    ensures Appends(e.journal, r.journal) && r.jobEvents == e.jobEvents && r.unheard == e.unheard
  {
    if !e.reconciling || (e.pending && !e.recorded && ok) then e
    else
      var cleared := e.pending && e.recorded && (ok || took);
      e.(reconciling := false, blocked := !ok,
         pending := e.pending && !cleared, recorded := e.recorded && !cleared,
         change := if e.change == Closing then NoChange else e.change)
  }

  // A restart.

  function BootMaintenance(j: Journal, restored: bool): (r: Option<Journal>)
    ensures r.Some? ==> Appends(j, r.value)
  {
    if j.maintenance.None? || j.maintenance.value.state != Running then Some(j)
    else
      var m := j.maintenance.value;
      if !m.restore then Some(j.(maintenance := Some(m.(state := Queued, phase := Early))))
      else
        var done :=
          if restored then m.(state := Succeeded, phase := Finished, percent := 100) else m.(state := Interrupted);
        var kind := if restored then RestoreSucceeded else RestoreInterrupted;
        Audit(j.(maintenance := Some(done)), kind, Listed(j.jobs, m.target))
  }

  /** The schema admits one active job, so one job at most is interrupted. */
  function BootJob(j: Journal): (r: Option<Journal>)
    ensures r.Some? ==> Appends(j, r.value)
  {
    var k := First(Runs, j.jobs);
    if k == |j.jobs| then Some(j)
    else Audit(j.(jobs := j.jobs[k := j.jobs[k].(state := Interrupted)]), JobInterrupted, Some(j.jobs[k].id))
  }

  function Restart(e: Engine, restored: bool): (r: Engine)
    ensures Appends(e.journal, r.journal) && r.jobEvents == e.jobEvents && r.unheard == e.unheard
  {
    var rebooted := e.(executing := false, tasks := [], downloading := false, downloads := 0,
                    change := NoChange, blocked := true, reconciling := false);
    var m := BootMaintenance(e.journal, restored);
    var r := if m.None? then None else BootJob(m.value);
    if r.None? then rebooted.(stranded := true) else rebooted.(journal := r.value)
  }

  datatype Action =
    | Tick(elapsed: nat)
    | DoStart(id: nat)
    | DoLaunch(id: nat)
    | DoComplete(task: nat, ok: bool, artifact: Option<nat>, remote: Remote)
    | DoDispatch(task: nat)
    | DoAcknowledgeRemoval(task: nat)
    | DoSettle(task: nat)
    | DoAbort(task: nat)
    | DoUpdate(expected: nat, enabled: bool, hours: nat, retention: nat)
    | DoAcknowledge(sequence: nat)
    | DoRequestMaintenance(target: nat, restore: bool)
    | DoRunMaintenance
    | DoProgress(task: nat, phase: Phase, percent: nat)
    | DoFinishMaintenance(task: nat, ok: bool)
    | DoBeginRecovery
    | DoEndRecovery(task: nat, ok: bool)
    | DoAcquireDownload
    | DoReleaseDownload
    | DoAskChange
    | DoAllowChange
    | DoChangeStore
    | DoStartReconcile
    | DoRecordChange
    | DoEndReconcile(ok: bool, took: bool)
    | DoRestart(restored: bool)

  function Step(e: Engine, a: Action): (r: Engine)
    ensures a.DoAcknowledge? || Appends(e.journal, r.journal)
    ensures r.jobEvents == e.jobEvents && (a.DoEndRecovery? || r.unheard == e.unheard)
  {
    match a
    case Tick(elapsed) => e.(clock := e.clock + elapsed)
    case DoStart(id) => Start(e, id)
    case DoLaunch(id) => Launch(e, id)
    case DoComplete(t, ok, artifact, remote) => Complete(e, t, ok, artifact, remote)
    case DoDispatch(t) => Dispatched(e, t)
    case DoAcknowledgeRemoval(t) => AcknowledgeRemoval(e, t)
    case DoSettle(t) => Settle(e, t)
    case DoAbort(t) => Abort(e, t)
    case DoUpdate(expected, enabled, hours, retention) => Update(e, expected, enabled, hours, retention)
    case DoAcknowledge(n) => Acknowledge(e, n)
    case DoRequestMaintenance(target, restore) => RequestMaintenance(e, target, restore)
    case DoRunMaintenance => RunMaintenance(e)
    case DoProgress(t, phase, percent) => Progress(e, t, phase, percent)
    case DoFinishMaintenance(t, ok) => FinishMaintenance(e, t, ok)
    case DoBeginRecovery => BeginRecovery(e)
    case DoEndRecovery(t, ok) => EndRecovery(e, t, ok)
    case DoAcquireDownload => AcquireDownload(e)
    case DoReleaseDownload => ReleaseDownload(e)
    case DoAskChange => AskChange(e)
    case DoAllowChange => AllowChange(e)
    case DoChangeStore => ChangeStore(e)
    case DoStartReconcile => StartReconcile(e)
    case DoRecordChange => RecordChange(e)
    case DoEndReconcile(ok, took) => EndReconcile(e, ok, took)
    case DoRestart(restored) => Restart(e, restored)
  }
}
