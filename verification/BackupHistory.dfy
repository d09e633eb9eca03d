/** What the audit events tell.  Replaying all events that were ever published reconstructs the
    state of every job and of the maintenance operation and the number of configuration updates; a
    backup told removed is not retained; and no event is told twice. */
module BackupHistory {
  import opened Durability
  import opened BackupJournal
  import opened BackupRetention
  import opened BackupEngine
  import opened BackupSafety
  import opened BackupRuns

  datatype Told = Told(target: nat, restore: bool, state: JobState)

  /** What a reader of the events knows. */
  datatype View = View(
    states: map<nat, JobState>,
    pruned: set<nat>,
    maintenance: Option<Told>,
    updates: nat,
    remoteChanges: nat)

  const NOTHING := View(map[], {}, None, 0, 0)

  function WithState(v: View, job: Option<nat>, state: JobState): View {
    if job.None? then v else v.(states := v.states[job.value := state])
  }

  function WithOutcome(v: View, state: JobState): View {
    if v.maintenance.None? then v else v.(maintenance := Some(v.maintenance.value.(state := state)))
  }

  function Read(v: View, e: Event): View {
    match e.kind
    case JobRequested =>
      var w := WithState(v, e.job, Queued);
      if e.job.None? then w else w.(pruned := w.pruned - {e.job.value})
    case JobStarted => WithState(v, e.job, Running)
    case JobSucceeded => WithState(v, e.job, Succeeded)
    case JobFailed => WithState(v, e.job, Failed)
    case JobInterrupted => WithState(v, e.job, Interrupted)
    case JobPruned => if e.job.None? then v else v.(pruned := v.pruned + {e.job.value})
    case ConfigurationUpdated => v.(updates := v.updates + 1)
    case OffHostUpdated => v.(remoteChanges := v.remoteChanges + 1)
    case DeleteRequested => if e.job.None? then v else v.(maintenance := Some(Told(e.job.value, false, Queued)))
    case RestoreRequested => if e.job.None? then v else v.(maintenance := Some(Told(e.job.value, true, Queued)))
    case RestoreStarted => WithOutcome(v, Running)
    case Deleted | RestoreSucceeded => WithOutcome(v, Succeeded)
    case DeleteFailed | RestoreFailed => WithOutcome(v, Failed)
    case RestoreInterrupted => WithOutcome(v, Interrupted)
  }

  function Replay(v: View, events: seq<Event>): View
    decreases events
  {
    if events == [] then v else Replay(Read(v, events[0]), events[1..])
  }

  /** Every event changes what its reader knows. */
  predicate AllNew(v: View, events: seq<Event>)
    decreases events
  {
    events == [] || (Read(v, events[0]) != v && AllNew(Read(v, events[0]), events[1..]))
  }

  lemma {:induction false} ReplayJoins(v: View, a: seq<Event>, b: seq<Event>)
    ensures Replay(v, a + b) == Replay(Replay(v, a), b)
    ensures AllNew(v, a + b) <==> AllNew(v, a) && AllNew(Replay(v, a), b)
    decreases a
  {
    hide Read;
    if a == [] {
      assert a + b == b;
    } else {
      assert (a + b)[0] == a[0] && (a + b)[1..] == a[1..] + b;
      ReplayJoins(Read(v, a[0]), a[1..], b);
    }
  }

  lemma ReplayOne(v: View, e: Event)
    ensures Replay(v, [e]) == Read(v, e)
    ensures AllNew(v, [e]) <==> Read(v, e) != v
  {
    hide Read;
    assert [e][1..] == [];
  }

  // ---------- What agreement means ----------

  /** A deletion that has begun is not announced again. */
  function Announced(m: Option<Maintenance>): Option<Told> {
    if m.None? then None
    else
      var state := if !m.value.restore && m.value.state == Running then Queued else m.value.state;
      Some(Told(m.value.target, m.value.restore, state))
  }

  predicate Unfinished(state: JobState) {
    state == Queued || state == Running
  }

  ghost predicate JobsAgree(jobs: seq<Job>, v: View) {
    && (forall i :: 0 <= i < |jobs| ==> jobs[i].id in v.states && v.states[jobs[i].id] == jobs[i].state)
    && (forall i :: 0 <= i < |jobs| && jobs[i].id in v.pruned ==> jobs[i].state == Succeeded && !jobs[i].retained)
    && (forall id :: id in v.states && Unfinished(v.states[id]) ==> IndexOf(jobs, id) < |jobs|)
  }

  ghost predicate Agrees(j: Journal, v: View) {
    JobsAgree(j.jobs, v) && v.maintenance == Announced(j.maintenance) && v.updates == j.configuration.revision
  }

  /** The events that a step adds. */
  function News(j: Journal, r: Journal): seq<Event> {
    if |j.events| <= |r.events| then r.events[|j.events|..] else []
  }

  ghost predicate Tells(j: Journal, r: Journal, v: View) {
    && Appends(j, r)
    && Agrees(r, Replay(v, News(j, r))) && AllNew(v, News(j, r))
  }

  lemma TellsNothing(j: Journal, r: Journal, v: View)
    requires r.events == j.events && r.acknowledged == j.acknowledged && Agrees(r, v)
    ensures Tells(j, r, v) && Replay(v, News(j, r)) == v
  {
    assert News(j, r) == [];
  }

  lemma TellsOne(j: Journal, draft: Journal, kind: Kind, job: Option<nat>, v: View)
    requires draft.events == j.events && draft.acknowledged == j.acknowledged && Room(draft) >= 1
    requires
      var w := Read(v, Event(Last(draft) + 1, kind, job));
      w != v && Agrees(draft, w)
    ensures
      var r := Audit(draft, kind, job).value;
      Tells(j, r, v) && Replay(v, News(j, r)) == Read(v, Event(Last(draft) + 1, kind, job))
  {
    hide Room, Read, JobsAgree;
    var r := Audit(draft, kind, job).value;
    var event := Event(Last(draft) + 1, kind, job);
    assert News(j, r) == [event];
    ReplayOne(v, event);
  }

  lemma TellsBoth(a: Journal, b: Journal, c: Journal, v: View)
    requires Tells(a, b, v) && Tells(b, c, Replay(v, News(a, b)))
    ensures Tells(a, c, v) && Replay(v, News(a, c)) == Replay(Replay(v, News(a, b)), News(b, c))
  {
    hide Read, Agrees, Replay, AllNew;
    assert News(a, c) == News(a, b) + News(b, c);
    ReplayJoins(v, News(a, b), News(b, c));
  }

  // ---------- Jobs ----------

  /** One job moves to another state. */
  lemma JobMoves(jobs: seq<Job>, k: nat, job: Job, v: View, w: View)
    requires JobsAgree(jobs, v) && DistinctIds(jobs) && k < |jobs| && job.id == jobs[k].id && job.state != jobs[k].state
    requires w == v.(states := v.states[job.id := job.state])
    requires jobs[k].state != Succeeded
    ensures JobsAgree(jobs[k := job], w) && w != v && job.id !in v.pruned
  {
    var next := jobs[k := job];
    assert next[k] == job;
    assert w.states[job.id] != v.states[job.id];
    forall id | id in w.states && Unfinished(w.states[id]) ensures IndexOf(next, id) < |next| {
      var i := if id == job.id then k else IndexOf(jobs, id);
      assert next[i].id == id;
    }
  }

  lemma BegunTells(j: Journal, k: nat, v: View)
    requires Sound(j) && Agrees(j, v) && k < |j.jobs| && j.jobs[k].state == Queued && Begun(j, k).Some?
    ensures Tells(j, Begun(j, k).value, v) && Replay(v, News(j, Begun(j, k).value)).pruned == v.pruned
  {
    hide Tally, Room, JobsAgree, Contiguous, MaintenanceSound, Reserved;
    var job := j.jobs[k].(state := Running);
    var draft := j.(jobs := j.jobs[k := job]);
    var w := Read(v, Event(Last(draft) + 1, JobStarted, Some(job.id)));
    JobMoves(j.jobs, k, job, v, w);
    TellsOne(j, draft, JobStarted, Some(job.id), v);
  }

  lemma CompletedTells(j: Journal, k: nat, ok: bool, artifact: Option<nat>, remote: Remote, v: View)
    requires Sound(j) && Agrees(j, v) && k < |j.jobs| && j.jobs[k].state == Running
    ensures
      var r := Completed(j, k, ok, artifact, remote);
      && r.Some? && Tells(j, r.value, v) && Replay(v, News(j, r.value)).pruned == v.pruned
      && j.jobs[k].id !in v.pruned
  {
    hide Tally, JobsAgree, Contiguous, MaintenanceSound, Reserved, Room;
    CompletedKeeps(j, k, ok, artifact, remote);
    var retained := ok && Tally(Retains, j.jobs) < RETAINED_LIMIT;
    var state := if ok then Succeeded else Failed;
    var job := j.jobs[k].(artifact := artifact, remote := remote, state := state, retained := retained);
    var draft, kind := j.(jobs := j.jobs[k := job]), if ok then JobSucceeded else JobFailed;
    var w := Read(v, Event(Last(draft) + 1, kind, Some(job.id)));
    JobMoves(j.jobs, k, job, v, w);
    TellsOne(j, draft, kind, Some(job.id), v);
  }

  lemma BootJobTells(j: Journal, v: View)
    requires Sound(j) && Agrees(j, v)
    ensures BootJob(j).Some? && Tells(j, BootJob(j).value, v)
  {
    hide Tally, JobsAgree, Contiguous, MaintenanceSound, Reserved, Room;
    BootJobKeeps(j);
    var k := First(Runs, j.jobs);
    if k == |j.jobs| {
      TellsNothing(j, j, v);
    } else {
      var job := j.jobs[k].(state := Interrupted);
      var draft := j.(jobs := j.jobs[k := job]);
      var w := Read(v, Event(Last(draft) + 1, JobInterrupted, Some(job.id)));
      JobMoves(j.jobs, k, job, v, w);
      TellsOne(j, draft, JobInterrupted, Some(job.id), v);
    }
  }

  /** Finished jobs may leave the list. */
  lemma JobsLeave(jobs: seq<Job>, kept: seq<Job>, v: View)
    requires JobsAgree(jobs, v)
    requires forall job :: job in kept ==> job in jobs
    requires forall job :: job in jobs && Active(job) ==> job in kept
    ensures JobsAgree(kept, v)
  {
    forall i | 0 <= i < |kept|
      ensures kept[i].id in v.states && v.states[kept[i].id] == kept[i].state
      ensures kept[i].id in v.pruned ==> kept[i].state == Succeeded && !kept[i].retained
    {
      assert kept[i] in jobs;
      var k :| 0 <= k < |jobs| && jobs[k] == kept[i];
    }
    forall id | id in v.states && Unfinished(v.states[id]) ensures IndexOf(kept, id) < |kept| {
      var k := IndexOf(jobs, id);
      assert jobs[k] in kept;
      var i :| 0 <= i < |kept| && kept[i] == jobs[k];
    }
  }

  /** A new job is queued. */
  lemma JobJoins(jobs: seq<Job>, job: Job, v: View, w: View)
    requires JobsAgree(jobs, v) && IndexOf(jobs, job.id) == |jobs| && job.state == Queued
    requires w == v.(states := v.states[job.id := Queued], pruned := v.pruned - {job.id})
    ensures JobsAgree(jobs + [job], w) && w != v
  {
    var all := jobs + [job];
    assert job.id in v.states ==> v.states[job.id] != Queued;
    assert w.states[job.id] == Queued;
    forall i | 0 <= i < |all|
      ensures all[i].id in w.states && w.states[all[i].id] == all[i].state
      ensures all[i].id in w.pruned ==> all[i].state == Succeeded && !all[i].retained
    {
      if i < |jobs| { assert all[i] == jobs[i] && jobs[i].id != job.id; } else { assert all[i] == job; }
    }
    forall id | id in w.states && Unfinished(w.states[id]) ensures IndexOf(all, id) < |all| {
      IndexOfAppended(jobs, job, id);
    }
  }

  lemma AdmittedTells(e: Engine, id: nat, slot: Option<nat>, v: View)
    requires Inv(e) && Agrees(e.journal, v) && Admitted(e, id, slot).Some?
    ensures
      var r := Admitted(e, id, slot).value;
      Tells(e.journal, r, v) && Replay(v, News(e.journal, r)).pruned <= v.pruned
  {
    hide Tally, JobsAgree, Contiguous, MaintenanceSound, Reserved, Room, OffHostSound, Exclusive, Ordered, Trimmed;
    var j := e.journal;
    AdmissionTrims(j.jobs);
    var kept := Trimmed(j.jobs, JOBS_LIMIT - 1).value;
    TallyNone(Works, j.jobs);
    JobsLeave(j.jobs, kept, v);
    var job := Job(id, slot, Queued, None, Unreplicated, false);
    var draft := j.(jobs := kept + [job]);
    var w := Read(v, Event(Last(draft) + 1, JobRequested, Some(id)));
    JobJoins(kept, job, v, w);
    TellsOne(j, draft, JobRequested, Some(id), v);
  }

  /** Only retained flags change, and none is raised on a removed backup. */
  lemma FlagsChange(jobs: seq<Job>, next: seq<Job>, v: View, w: View)
    requires JobsAgree(jobs, v) && SameButRetained(jobs, next) && w.states == v.states
    requires forall i :: 0 <= i < |next| && next[i].id in w.pruned ==> next[i].state == Succeeded && !next[i].retained
    ensures JobsAgree(next, w)
  {
    forall id | id in w.states && Unfinished(w.states[id]) ensures IndexOf(next, id) < |next| {
      assert next[IndexOf(jobs, id)].id == id;
    }
  }

  lemma SettledTells(j: Journal, id: nat, v: View)
    requires Sound(j) && Agrees(j, v) && TaskSound(j, Pruning(id)) && id !in v.pruned
    ensures Agrees(j.(jobs := Held(j.jobs, id)), v)
  {
    hide Tally, Contiguous, MaintenanceSound, Reserved, Room, Held;
    HeldKeeps(j.jobs, id);
    FlagsChange(j.jobs, Held(j.jobs, id), v, v);
  }

  lemma RemovedTells(j: Journal, id: nat, candidate: nat, v: View)
    requires Sound(j) && Agrees(j, v) && TaskSound(j, Removing(id, candidate)) && id !in v.pruned && Room(j) >= 1
    ensures
      var r := Audit(j.(jobs := Pruned(j.jobs, candidate, id)), JobPruned, Some(candidate)).value;
      Tells(j, r, v) && id !in Replay(v, News(j, r)).pruned
  {
    hide Tally, Contiguous, MaintenanceSound, Reserved, Room, Pruned;
    RemovedKeeps(j, id, candidate);
    var c := IndexOf(j.jobs, candidate);
    PruneStep(j.jobs, id, c);
    var draft := j.(jobs := Pruned(j.jobs, candidate, id));
    var w := Read(v, Event(Last(draft) + 1, JobPruned, Some(candidate)));
    RemovedFlags(j.jobs, draft.jobs, id, c, v, w);
    assert draft.events == j.events;
    RoomSame(j, draft);
    TellsOne(j, draft, JobPruned, Some(candidate), v);
  }

  lemma RoomSame(j: Journal, draft: Journal)
    requires draft.events == j.events && draft.acknowledged == j.acknowledged
    ensures Room(draft) == Room(j) && Last(draft) == Last(j)
  {
  }

  lemma RemovedFlags(jobs: seq<Job>, next: seq<Job>, id: nat, c: nat, v: View, w: View)
    requires JobsAgree(jobs, v) && DistinctIds(jobs) && SameButRetained(jobs, next) && c < |jobs|
    requires jobs[c].retained && jobs[c].state == Succeeded && jobs[c].id != id && id !in v.pruned
    requires forall i :: 0 <= i < |jobs| && i != c && jobs[i].id != id ==> next[i] == jobs[i]
    requires !next[c].retained && w == v.(pruned := v.pruned + {jobs[c].id})
    ensures JobsAgree(next, w) && w != v
  {
    assert jobs[c].id !in v.pruned && jobs[c].id in w.pruned;
    FlagsChange(jobs, next, v, w);
  }

  // ---------- Maintenance and settings ----------

  /** A draft with the jobs as they were and a new maintenance record. */
  lemma OperationTells(j: Journal, draft: Journal, kind: Kind, job: Option<nat>, v: View)
    requires Agrees(j, v) && Room(j) >= 1
    requires draft == j.(maintenance := draft.maintenance)
    requires
      var w := Read(v, Event(Last(j) + 1, kind, job));
      w != v && w == v.(maintenance := Announced(draft.maintenance))
    ensures Tells(j, Audit(draft, kind, job).value, v)
    ensures Replay(v, News(j, Audit(draft, kind, job).value)).pruned == v.pruned
  {
    hide Room, Read;
    RoomSame(j, draft);
    JobsOnly(j.jobs, v, Read(v, Event(Last(j) + 1, kind, job)));
    TellsOne(j, draft, kind, job, v);
  }

  lemma JobsOnly(jobs: seq<Job>, v: View, w: View)
    requires JobsAgree(jobs, v) && w.states == v.states && w.pruned == v.pruned
    ensures JobsAgree(jobs, w)
  {
  }

  lemma EndedTells(j: Journal, ok: bool, v: View)
    requires Sound(j) && Agrees(j, v) && TaskSound(j, Maintaining)
    ensures
      var r := Ended(j, j.maintenance.value, ok);
      r.Some? && Tells(j, r.value, v)
  {
    hide Tally, Contiguous, Reserved, JobsAgree, Without;
    EndedKeeps(j, ok);
    var m := j.maintenance.value;
    var done := m.(state := if ok then Succeeded else Failed, phase := if ok then Finished else m.phase,
                   percent := if ok then 100 else m.percent);
    var kind :=
      if m.restore then if ok then RestoreSucceeded else RestoreFailed
      else if ok then Deleted else DeleteFailed;
    var draft := j.(maintenance := Some(done));
    OperationTells(j, draft, kind, Listed(j.jobs, m.target), v);
    if !m.restore && ok { LeavesTells(j, Audit(draft, kind, Listed(j.jobs, m.target)).value, m.target, v); }
  }

  /** The deleted job leaves the list. */
  lemma LeavesTells(j: Journal, r: Journal, id: nat, v: View)
    requires Tells(j, r, v) && Tally(Works, r.jobs) == 0
    ensures Tells(j, r.(jobs := Without(r.jobs, id)), v)
  {
    hide Tally, Replay, AllNew;
    TallyNone(Works, r.jobs);
    JobsLeave(r.jobs, Without(r.jobs, id), Replay(v, News(j, r)));
  }

  lemma BootMaintenanceTells(j: Journal, restored: bool, v: View)
    requires Sound(j) && Agrees(j, v)
    ensures BootMaintenance(j, restored).Some? && Tells(j, BootMaintenance(j, restored).value, v)
  {
    hide Tally, Contiguous, Reserved, JobsAgree;
    BootMaintenanceKeeps(j, restored);
    if j.maintenance.None? || j.maintenance.value.state != Running || !j.maintenance.value.restore {
      TellsNothing(j, BootMaintenance(j, restored).value, v);
    } else {
      var m := j.maintenance.value;
      var done :=
        if restored then m.(state := Succeeded, phase := Finished, percent := 100) else m.(state := Interrupted);
      var kind := if restored then RestoreSucceeded else RestoreInterrupted;
      OperationTells(j, j.(maintenance := Some(done)), kind, Listed(j.jobs, m.target), v);
    }
  }

  lemma RestartTells(j: Journal, restored: bool, v: View)
    requires Sound(j) && Agrees(j, v)
    ensures
      var m := BootMaintenance(j, restored);
      m.Some? && BootJob(m.value).Some? && Tells(j, BootJob(m.value).value, v)
  {
    hide Tally, BootMaintenance, BootJob, JobsAgree, Contiguous, MaintenanceSound, Reserved, Replay, AllNew, News;
    BootMaintenanceTells(j, restored, v);
    BootMaintenanceKeeps(j, restored);
    var m := BootMaintenance(j, restored).value;
    BootJobTells(m, Replay(v, News(j, m)));
    TellsBoth(j, m, BootJob(m).value, v);
  }

  // ---------- Steps ----------

  /** The journal agrees with what was told, and the backup being finished was never removed. */
  ghost predicate InStep(e: Engine, v: View) {
    && Agrees(e.journal, v)
    && (|e.tasks| == 1 && (e.tasks[0].Pruning? || e.tasks[0].Removing?) ==> e.tasks[0].id !in v.pruned)
  }

  ghost predicate StepTells(e: Engine, next: Engine, v: View) {
    Tells(e.journal, next.journal, v) && InStep(next, Replay(v, News(e.journal, next.journal)))
  }

  lemma Silent(e: Engine, next: Engine, v: View)
    requires InStep(e, v) && Agrees(next.journal, v)
    requires next.journal.events == e.journal.events && next.journal.acknowledged == e.journal.acknowledged
    requires next.tasks == e.tasks || next.tasks == [] ||
            (|next.tasks| == 1 && !next.tasks[0].Pruning? && !next.tasks[0].Removing?)
    ensures StepTells(e, next, v)
  {
    hide Agrees, Replay, AllNew;
    TellsNothing(e.journal, next.journal, v);
  }

  /** No task of the new state is finishing a backup, or its backup was not removed by what is told. */
  lemma Spoken(e: Engine, next: Engine, v: View)
    requires InStep(e, v) && Tells(e.journal, next.journal, v)
    requires next.tasks == [] || (|next.tasks| == 1 && !next.tasks[0].Pruning? && !next.tasks[0].Removing?) ||
             (next.tasks == e.tasks && Replay(v, News(e.journal, next.journal)).pruned <= v.pruned)
    ensures StepTells(e, next, v)
  {
    hide Agrees, Replay, AllNew, News;
  }

  lemma StartTells(e: Engine, id: nat, v: View)
    requires Inv(e) && InStep(e, v)
    ensures StepTells(e, Start(e, id), v)
  {
    hide Agrees, Replay, AllNew, News, Admitted, Inv;
    if Admitted(e, id, None).Some? {
      AdmittedTells(e, id, None, v);
      Spoken(e, Start(e, id), v);
    } else {
      Silent(e, e, v);
    }
  }

  lemma BeginTells(e: Engine, j: Journal, k: nat, slots: seq<nat>, v: View)
    requires Inv(e) && InStep(e, v) && e.tasks == [] && Tells(e.journal, j, v)
    requires Sound(j) && k < |j.jobs| && j.jobs[k].state == Queued && Begun(j, k).Some?
    ensures StepTells(e, Begin(e, j, k, slots), v)
  {
    hide Inv, Replay, AllNew, News, Begun, Sound, Agrees;
    BegunTells(j, k, Replay(v, News(e.journal, j)));
    TellsBoth(e.journal, j, Begun(j, k).value, v);
    Spoken(e, Begin(e, j, k, slots), v);
  }

  lemma LaunchTells(e: Engine, id: nat, v: View)
    requires Inv(e) && InStep(e, v)
    ensures StepTells(e, Launch(e, id), v)
  {
    hide Tally, Begin, Admitted, NextRun, Contiguous, MaintenanceSound, Reserved, Room, DistinctIds, TaskSound, Appends,
      Agrees, Replay, AllNew, News, Begun, Ordered, OffHostSound;
    var j := e.journal;
    WorksSplit(j.jobs);
    NoFirst(Waits, j.jobs);
    NoFirst(Runs, j.jobs);
    if e.executing || OffHostBusy(e) || e.downloading || MaintenanceActive(j) || First(Runs, j.jobs) < |j.jobs| {
      Silent(e, e, v);
    } else if First(Waits, j.jobs) < |j.jobs| {
      var k := First(Waits, j.jobs);
      BegunKeeps(j, k);
      TellsNothing(j, j, v);
      BeginTells(e, j, k, e.slots, v);
    } else if Launch(e, id) == e {
      Silent(e, e, v);
    } else {
      var due := j.configuration.next.value;
      var r := Admitted(e, id, Some(due)).value;
      AdmittedKeeps(e, id, Some(due));
      AdmittedTells(e, id, Some(due), v);
      NextRunIs(due, e.clock, Milliseconds(j.configuration.hours));
      var next := NextRun(due, e.clock, Milliseconds(j.configuration.hours));
      var c := r.configuration.(next := Some(next));
      Reconfigured(r, c);
      RescheduledTells(j, r, c, v);
      var draft := r.(configuration := c);
      BegunKeeps(draft, |draft.jobs| - 1);
      BeginTells(e, draft, |draft.jobs| - 1, e.slots + [due], v);
    }
  }

  /** A new schedule under the same revision tells nothing. */
  lemma RescheduledTells(j: Journal, r: Journal, c: Configuration, v: View)
    requires Tells(j, r, v) && c.revision == r.configuration.revision
    ensures Tells(j, r.(configuration := c), v)
  {
    hide JobsAgree, Replay, AllNew;
  }

  lemma CompleteTells(e: Engine, t: nat, ok: bool, artifact: Option<nat>, remote: Remote, v: View)
    requires Inv(e) && InStep(e, v)
    ensures StepTells(e, Complete(e, t, ok, artifact, remote), v)
  {
    hide Tally, Contiguous, MaintenanceSound, Reserved, Room, Agrees, Replay, AllNew, News, Completed, JobsSound,
      Ordered, OffHostSound;
    var next := Complete(e, t, ok, artifact, remote);
    if t < |e.tasks| && e.tasks[t].Backup? {
      var k := IndexOf(e.journal.jobs, e.tasks[t].id);
      CompletedTells(e.journal, k, ok, artifact, remote, v);
      if !ok { CloseKeeps(e, t); }
    } else {
      Silent(e, next, v);
    }
  }

  lemma DispatchTells(e: Engine, t: nat, v: View)
    requires Inv(e) && InStep(e, v)
    ensures StepTells(e, Dispatched(e, t), v)
  {
    hide Tally, Contiguous, MaintenanceSound, Reserved, Room, Agrees, Replay, AllNew, JobsSound, Ordered, OffHostSound,
      Plan, Committed;
    if t < |e.tasks| && e.tasks[t].Pruning? { PlannedKeeps(e.journal, e.tasks[t].id); }
    TellsNothing(e.journal, e.journal, v);
  }

  lemma RemovalTells(e: Engine, t: nat, v: View)
    requires Inv(e) && InStep(e, v)
    ensures StepTells(e, AcknowledgeRemoval(e, t), v)
  {
    hide Tally, Contiguous, MaintenanceSound, Reserved, Room, Agrees, Replay, AllNew, News, JobsSound, Ordered,
      OffHostSound, Pruned, Audit, Committed;
    var next := AcknowledgeRemoval(e, t);
    if t < |e.tasks| && e.tasks[t].Removing? {
      CloseKeeps(e, t);
      var j, id, candidate := e.journal, e.tasks[t].id, e.tasks[t].candidate;
      RemovedKeeps(j, id, candidate);
      if Room(j) >= 1 { RemovedTells(j, id, candidate, v); } else { Silent(e, next, v); }
    } else {
      Silent(e, next, v);
    }
  }

  lemma AbortTells(e: Engine, t: nat, v: View)
    requires Inv(e) && InStep(e, v)
    ensures StepTells(e, Abort(e, t), v)
  {
    hide Sound, Agrees, TaskSound, Ordered, OffHostSound, StepTells;
    Silent(e, Abort(e, t), v);
  }

  lemma SettleTells(e: Engine, t: nat, v: View)
    requires Inv(e) && InStep(e, v)
    ensures StepTells(e, Settle(e, t), v)
  {
    hide Tally, Contiguous, MaintenanceSound, Reserved, Room, Agrees, JobsSound, Ordered, OffHostSound, Held, Committed,
      StepTells;
    if t < |e.tasks| && (e.tasks[t].Pruning? || e.tasks[t].Removing?) {
      var j, id := e.journal, e.tasks[t].id;
      SettledKeeps(j, id);
      SettledTells(j, id, v);
      var next := Close(e, t).(journal := j.(jobs := Held(j.jobs, id)));
      assert Settle(e, t) == next;
      Silent(e, next, v);
    } else {
      Silent(e, e, v);
    }
  }

  lemma UpdateTells(e: Engine, expected: nat, enabled: bool, hours: nat, retention: nat, v: View)
    requires Inv(e) && InStep(e, v)
    ensures StepTells(e, Update(e, expected, enabled, hours, retention), v)
  {
    hide Tally, Inv, Room, Replay, AllNew, News, Audit, JobsAgree, OffHostBusy, AnyActive, MaintenanceActive;
    var next := Update(e, expected, enabled, hours, retention);
    if next == e {
      Silent(e, e, v);
    } else {
      var j, c := e.journal, e.journal.configuration;
      var at :=
        if !enabled then None
        else if enabled != c.enabled || hours != c.hours then Some(e.clock + Milliseconds(hours))
        else c.next;
      var draft := j.(configuration := Configuration(c.revision + 1, enabled, hours, retention, at));
      var w := Read(v, Event(Last(draft) + 1, ConfigurationUpdated, None));
      JobsOnly(j.jobs, v, w);
      RoomSame(j, draft);
      TellsOne(j, draft, ConfigurationUpdated, None, v);
      Spoken(e, next, v);
    }
  }

  lemma RecordTells(e: Engine, v: View)
    requires Inv(e) && InStep(e, v)
    ensures StepTells(e, RecordChange(e), v)
  {
    hide Tally, Inv, Room, Replay, AllNew, News, Audit, JobsAgree;
    var next, j := RecordChange(e), e.journal;
    if Audit(j, OffHostUpdated, None).Some? && next != e && next.recorded {
      var w := Read(v, Event(Last(j) + 1, OffHostUpdated, None));
      JobsOnly(j.jobs, v, w);
      TellsOne(j, j, OffHostUpdated, None, v);
      Spoken(e, next, v);
    } else {
      Silent(e, next, v);
    }
  }

  lemma RequestTells(e: Engine, target: nat, restore: bool, v: View)
    requires Inv(e) && InStep(e, v)
    ensures StepTells(e, RequestMaintenance(e, target, restore), v)
  {
    hide Tally, Inv, Room, Replay, AllNew, News, Audit, JobsAgree, OffHostBusy, AnyActive, IndexOf, Active;
    var next, j := RequestMaintenance(e, target, restore), e.journal;
    if next == e {
      Silent(e, e, v);
    } else {
      var draft := j.(maintenance := Some(Maintenance(target, restore, Queued, Early, 0)));
      RoomSame(j, draft);
      OperationTells(j, draft, if restore then RestoreRequested else DeleteRequested, Some(target), v);
      Spoken(e, next, v);
    }
  }

  lemma RunMaintenanceTells(e: Engine, v: View)
    requires Inv(e) && InStep(e, v)
    ensures StepTells(e, RunMaintenance(e), v)
  {
    hide Tally, Sound, TaskSound, Ordered, OffHostSound, Room, Replay, AllNew, News, Audit, JobsAgree, OffHostBusy,
      IndexOf, StepTells, Appends;
    var next, j := RunMaintenance(e), e.journal;
    if next.tasks == e.tasks {
      Silent(e, next, v);
    } else {
      var queued := j.maintenance.value;
      var m := queued.(state := Running, percent := if queued.restore then 1 else queued.percent);
      var draft := j.(maintenance := Some(m));
      RoomSame(j, draft);
      if m.restore {
        OperationTells(j, draft, RestoreStarted, Some(m.target), v);
        Spoken(e, next, v);
      } else {
        Silent(e, next, v);
      }
    }
  }

  lemma ProgressTells(e: Engine, t: nat, phase: Phase, percent: nat, v: View)
    requires Inv(e) && InStep(e, v)
    ensures StepTells(e, Progress(e, t, phase, percent), v)
  {
    hide Inv, JobsAgree, StepTells, Appends, Progress, Announced;
    ProgressIsSilent(e, t, phase, percent);
    Silent(e, Progress(e, t, phase, percent), v);
  }

  lemma ProgressIsSilent(e: Engine, t: nat, phase: Phase, percent: nat)
    ensures
      var j, next := e.journal, Progress(e, t, phase, percent);
      && next.tasks == e.tasks && next.journal == j.(maintenance := next.journal.maintenance)
      && Announced(next.journal.maintenance) == Announced(j.maintenance)
  {
    hide Appends;
    if Progress(e, t, phase, percent) != e {
      var m := e.journal.maintenance.value;
      var done := e.journal.(maintenance := Some(m.(phase := phase, percent := percent)));
      assert Progress(e, t, phase, percent) == e.(journal := done);
    }
  }

  lemma FinishTells(e: Engine, t: nat, ok: bool, v: View)
    requires Inv(e) && InStep(e, v)
    ensures StepTells(e, FinishMaintenance(e, t, ok), v)
  {
    hide Tally, Contiguous, MaintenanceSound, Reserved, JobsSound, Ordered, OffHostSound, Room, Replay, AllNew, News,
      Ended, Agrees;
    var next := FinishMaintenance(e, t, ok);
    if t < |e.tasks| && e.tasks[t] == Maintaining {
      CloseKeeps(e, t);
      EndedTells(e.journal, ok, v);
      Spoken(e, next, v);
    } else {
      Silent(e, next, v);
    }
  }

  lemma RecoveryTells(e: Engine, t: nat, ok: bool, v: View)
    requires Inv(e) && InStep(e, v)
    ensures StepTells(e, BeginRecovery(e), v) && StepTells(e, EndRecovery(e, t, ok), v)
  {
    hide Tally, Contiguous, MaintenanceSound, Reserved, JobsSound, Ordered, OffHostSound, Room, Replay, AllNew, News,
      Audit, JobsAgree, OffHostBusy;
    Silent(e, BeginRecovery(e), v);
    var next, j := EndRecovery(e, t, ok), e.journal;
    if t < |e.tasks| { CloseKeeps(e, t); }
    if next.journal == j {
      Silent(e, next, v);
    } else {
      var m := j.maintenance.value;
      var draft := j.(maintenance := Some(m.(state := Succeeded, phase := Finished, percent := 100)));
      RoomSame(j, draft);
      OperationTells(j, draft, RestoreSucceeded, Listed(j.jobs, m.target), v);
      Spoken(e, next, v);
    }
  }

  lemma RestartStepTells(e: Engine, restored: bool, v: View)
    requires Inv(e) && InStep(e, v)
    ensures StepTells(e, Restart(e, restored), v)
  {
    hide Tally, Sound, Exclusive, Ordered, OffHostSound, BootMaintenance, BootJob, Replay, AllNew, News, Agrees;
    RestartTells(e.journal, restored, v);
    Spoken(e, Restart(e, restored), v);
  }

  lemma ChangeTells(e: Engine, v: View)
    requires InStep(e, v)
    ensures StepTells(e, AcquireDownload(e), v) && StepTells(e, ReleaseDownload(e), v) && StepTells(e, AskChange(e), v)
    ensures StepTells(e, AllowChange(e), v)
  {
    hide AcquireDownload, ReleaseDownload, AskChange, AllowChange, InStep, StepTells, Appends;
    DownloadIsSilent(e);
    ChangeIsSilent(e);
    Unmoved(e, AcquireDownload(e), v);
    Unmoved(e, ReleaseDownload(e), v);
    Unmoved(e, AskChange(e), v);
    Unmoved(e, AllowChange(e), v);
  }

  lemma DownloadIsSilent(e: Engine)
    ensures AcquireDownload(e).journal == ReleaseDownload(e).journal == e.journal
    ensures AcquireDownload(e).tasks == ReleaseDownload(e).tasks == e.tasks
  {
    hide OffHostBusy, MaintenanceActive, AnyActive, Appends;
  }

  lemma ChangeIsSilent(e: Engine)
    ensures AskChange(e).journal == AllowChange(e).journal == e.journal
    ensures AskChange(e).tasks == AllowChange(e).tasks == e.tasks
  {
    hide Room, MaintenanceActive, AnyActive, Appends;
  }

  lemma ReconcileTells(e: Engine, ok: bool, took: bool, v: View)
    requires InStep(e, v)
    ensures StepTells(e, ChangeStore(e), v) && StepTells(e, StartReconcile(e), v)
    ensures StepTells(e, EndReconcile(e, ok, took), v)
  {
    hide InStep, StepTells, Appends, ChangeStore, StartReconcile, EndReconcile;
    ReconcileIsSilent(e, ok, took);
    Unmoved(e, ChangeStore(e), v);
    Unmoved(e, StartReconcile(e), v);
    Unmoved(e, EndReconcile(e, ok, took), v);
  }

  lemma ReconcileIsSilent(e: Engine, ok: bool, took: bool)
    ensures ChangeStore(e).journal == StartReconcile(e).journal == EndReconcile(e, ok, took).journal == e.journal
    ensures ChangeStore(e).tasks == StartReconcile(e).tasks == EndReconcile(e, ok, took).tasks == e.tasks
  {
    hide Appends;
  }

  lemma Unmoved(e: Engine, next: Engine, v: View)
    requires InStep(e, v) && next.journal == e.journal && next.tasks == e.tasks
    ensures StepTells(e, next, v)
  {
    hide Agrees, StepTells;
    Silent(e, next, v);
  }

  /** The steps that work on jobs. */
  predicate OnJobs(a: Action) {
    a.DoStart? || a.DoLaunch? || a.DoComplete? || a.DoDispatch? || a.DoAcknowledgeRemoval? || a.DoSettle? || a.DoAbort?
  }

  lemma JobStepTells(e: Engine, a: Action, v: View)
    requires Inv(e) && InStep(e, v) && OnJobs(a)
    ensures StepTells(e, Step(e, a), v)
  {
    hide Inv, InStep, StepTells, Start, Launch, Complete, Dispatched, AcknowledgeRemoval, Settle, Appends, Abort;
    match a {
      case DoStart(id) => StartTells(e, id, v);
      case DoLaunch(id) => LaunchTells(e, id, v);
      case DoComplete(t, ok, artifact, remote) => CompleteTells(e, t, ok, artifact, remote, v);
      case DoDispatch(t) => DispatchTells(e, t, v);
      case DoAcknowledgeRemoval(t) => RemovalTells(e, t, v);
      case DoSettle(t) => SettleTells(e, t, v);
      case DoAbort(t) => AbortTells(e, t, v);
    }
  }

  /** The steps on the remote store, on downloads and on the clock. */
  predicate Beside(a: Action) {
    a.Tick? || a.DoAcquireDownload? || a.DoReleaseDownload? || a.DoAskChange? || a.DoAllowChange? ||
    a.DoChangeStore? || a.DoStartReconcile? || a.DoRecordChange? || a.DoEndReconcile?
  }

  lemma BesideStepTells(e: Engine, a: Action, v: View)
    requires Inv(e) && InStep(e, v) && Beside(a)
    ensures StepTells(e, Step(e, a), v)
  {
    hide Inv, InStep, StepTells, AcquireDownload, ReleaseDownload, AskChange, AllowChange, ChangeStore, StartReconcile,
      RecordChange, EndReconcile, Appends;
    match a {
      case Tick(elapsed) => Unmoved(e, e.(clock := e.clock + elapsed), v);
      case DoAcquireDownload => ChangeTells(e, v);
      case DoReleaseDownload => ChangeTells(e, v);
      case DoAskChange => ChangeTells(e, v);
      case DoAllowChange => ChangeTells(e, v);
      case DoChangeStore => ReconcileTells(e, false, false, v);
      case DoStartReconcile => ReconcileTells(e, false, false, v);
      case DoRecordChange => RecordTells(e, v);
      case DoEndReconcile(ok, took) => ReconcileTells(e, ok, took, v);
    }
  }

  lemma ControlStepTells(e: Engine, a: Action, v: View)
    requires Inv(e) && InStep(e, v) && !OnJobs(a) && !Beside(a) && !a.DoAcknowledge?
    ensures StepTells(e, Step(e, a), v)
  {
    hide Inv, InStep, StepTells, Update, RequestMaintenance, RunMaintenance, Progress, FinishMaintenance, BeginRecovery,
      EndRecovery, Restart, Appends;
    match a {
      case DoUpdate(expected, enabled, hours, retention) => UpdateTells(e, expected, enabled, hours, retention, v);
      case DoRequestMaintenance(target, restore) => RequestTells(e, target, restore, v);
      case DoRunMaintenance => RunMaintenanceTells(e, v);
      case DoProgress(t, phase, percent) => ProgressTells(e, t, phase, percent, v);
      case DoFinishMaintenance(t, ok) => FinishTells(e, t, ok, v);
      case DoBeginRecovery => RecoveryTells(e, 0, false, v);
      case DoEndRecovery(t, ok) => RecoveryTells(e, t, ok, v);
      case DoRestart(restored) => RestartStepTells(e, restored, v);
    }
  }

  lemma AnyStepTells(e: Engine, a: Action, v: View)
    requires Inv(e) && InStep(e, v) && !a.DoAcknowledge?
    ensures StepTells(e, Step(e, a), v)
  {
    hide Inv, InStep, StepTells, Step;
    if OnJobs(a) { JobStepTells(e, a, v); }
    else if Beside(a) { BesideStepTells(e, a, v); }
    else { ControlStepTells(e, a, v); }
  }

  // ---------- Runs ----------

  /** Everything published by a run, acknowledged or not. */
  function History(e: Engine, actions: seq<Action>): seq<Event>
    decreases actions
  {
    if actions == [] then []
    else News(e.journal, Step(e, actions[0]).journal) + History(Step(e, actions[0]), actions[1..])
  }

  lemma AcknowledgeTells(e: Engine, n: nat, v: View)
    requires Inv(e) && InStep(e, v)
    ensures InStep(Acknowledge(e, n), v) && News(e.journal, Acknowledge(e, n).journal) == []
  {
    hide Sound, Exclusive, OffHostSound, Ordered, JobsAgree, After, Last, Holds;
    AfterIsShorter(e.journal.events, n);
  }

  lemma {:induction false} AfterIsShorter(events: seq<Event>, n: nat)
    ensures |After(events, n)| <= |events|
  {
    if events != [] { AfterIsShorter(events[1..], n); }
  }

  lemma StepTold(e: Engine, a: Action, v: View)
    requires Inv(e) && InStep(e, v)
    ensures
      var news := News(e.journal, Step(e, a).journal);
      InStep(Step(e, a), Replay(v, news)) && AllNew(v, news)
  {
    hide Inv, InStep, Step;
    if a.DoAcknowledge? {
      AcknowledgeIs(e, a.sequence);
      AcknowledgeTells(e, a.sequence, v);
    } else {
      AnyStepTells(e, a, v);
    }
  }

  lemma AcknowledgeIs(e: Engine, n: nat)
    ensures Step(e, DoAcknowledge(n)) == Acknowledge(e, n)
  {
    hide Acknowledge, Appends;
  }

  lemma {:induction false} RunTells(e: Engine, actions: seq<Action>, v: View)
    requires Inv(e) && InStep(e, v)
    ensures InStep(Run(e, actions), Replay(v, History(e, actions))) && AllNew(v, History(e, actions))
    decreases actions
  {
    hide Inv, InStep, Step, News;
    if actions != [] {
      var next := Step(e, actions[0]);
      var news := News(e.journal, next.journal);
      StepKeeps(e, actions[0]);
      StepTold(e, actions[0], v);
      RunTells(next, actions[1..], Replay(v, news));
      ReplayJoins(v, news, History(next, actions[1..]));
    }
  }

  /** The history holds every number once, and the journal is what of it was not acknowledged. */
  ghost predicate Logged(j: Journal, h: seq<Event>) {
    && |h| == j.acknowledged + |j.events| && j.events == h[j.acknowledged..]
    && forall i :: 0 <= i < |h| ==> h[i].sequence == i + 1
  }

  lemma AppendLogs(j: Journal, r: Journal, h: seq<Event>)
    requires Logged(j, h) && Contiguous(r) && Appends(j, r)
    ensures Logged(r, h + News(j, r))
  {
    var news, all := News(j, r), h + News(j, r);
    assert r.events == j.events + news;
    assert all[r.acknowledged..] == r.events;
    forall i | 0 <= i < |all| ensures all[i].sequence == i + 1 {
      if i >= |h| { assert all[i] == r.events[i - j.acknowledged]; }
    }
  }

  lemma AcknowledgeLogs(e: Engine, n: nat, h: seq<Event>)
    requires Inv(e) && Logged(e.journal, h)
    ensures Logged(Acknowledge(e, n).journal, h)
  {
    hide Tally, JobsSound, MaintenanceSound, Reserved, Exclusive, OffHostSound, Ordered, After;
    var j := e.journal;
    if Acknowledge(e, n) != e {
      AfterIs(j.events, j.acknowledged + 1, n);
      assert j.events[n - j.acknowledged..] == h[n..];
    }
  }

  lemma StepLogs(e: Engine, a: Action, h: seq<Event>)
    requires Inv(e) && Logged(e.journal, h)
    ensures Logged(Step(e, a).journal, h + News(e.journal, Step(e, a).journal))
  {
    hide Step, Logged, JobsSound, MaintenanceSound, Reserved, Exclusive, OffHostSound, Ordered, Contiguous;
    StepKeeps(e, a);
    if a.DoAcknowledge? {
      AcknowledgeIs(e, a.sequence);
      AcknowledgeLogs(e, a.sequence, h);
      AfterIsShorter(e.journal.events, a.sequence);
      assert News(e.journal, Step(e, a).journal) == [];
      assert h + [] == h;
    } else {
      AppendLogs(e.journal, Step(e, a).journal, h);
    }
  }

  lemma {:induction false} RunLogs(e: Engine, actions: seq<Action>, h: seq<Event>)
    requires Inv(e) && Logged(e.journal, h)
    ensures Logged(Run(e, actions).journal, h + History(e, actions))
    decreases actions
  {
    hide Inv, Step, Logged, News;
    if actions == [] {
      assert h + [] == h;
    } else {
      var next := Step(e, actions[0]);
      var news := News(e.journal, next.journal);
      StepKeeps(e, actions[0]);
      StepLogs(e, actions[0], h);
      RunLogs(next, actions[1..], h + news);
      assert h + news + History(next, actions[1..]) == h + (news + History(next, actions[1..]));
    }
  }

  /** Over every run of a new store: the published events are numbered from one without a gap, the
      journal holds those not yet acknowledged, none repeats what was known, and whoever replays
      them knows the state of every listed job, the maintenance operation and the revision of the
      configuration.  No listed backup that was told removed is still retained. */
  lemma EventsTellEverything(clock: nat, jobEvents: nat, actions: seq<Action>)
    requires jobEvents >= JOB_EVENTS
    ensures
      var start := NewEngine(clock, jobEvents);
      var h, j := History(start, actions), Run(start, actions).journal;
      var v := Replay(NOTHING, h);
      && Logged(j, h) && AllNew(NOTHING, h)
      && (forall i :: 0 <= i < |j.jobs| ==> j.jobs[i].id in v.states && v.states[j.jobs[i].id] == j.jobs[i].state)
      && (forall i :: 0 <= i < |j.jobs| && j.jobs[i].id in v.pruned ==> !j.jobs[i].retained)
      && v.maintenance == Announced(j.maintenance) && v.updates == j.configuration.revision
  {
    hide Inv, Step, Run, Replay, AllNew, History;
    var start := NewEngine(clock, jobEvents);
    NewEngineIsSound(clock, jobEvents);
    RunTells(start, actions, NOTHING);
    RunLogs(start, actions, []);
    assert [] + History(start, actions) == History(start, actions);
  }
}
