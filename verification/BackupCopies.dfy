/** The last verified remote copy over whole runs of the engine: as long as a backup whose upload
    failed is being settled, no removal takes it, whatever other callers do meanwhile. */
module BackupCopies {
  import opened Durability
  import opened BackupJournal
  import opened BackupRetention
  import opened BackupEngine
  import opened BackupSafety
  import opened BackupRuns
  import opened BackupTick

  /** The backup `id` has succeeded and older ones are being removed for it. */
  predicate Settling(e: Engine, id: nat) {
    |e.tasks| == 1 && (e.tasks[0].Pruning? || e.tasks[0].Removing?) && e.tasks[0].id == id
  }

  /** What is being removed is not the last verified copy. */
  ghost predicate Spares(e: Engine) {
    |e.tasks| == 1 && e.tasks[0].Removing? ==>
      forall i :: Protected(e.journal.jobs, e.tasks[0].id, i) ==> e.journal.jobs[i].id != e.tasks[0].candidate
  }

  /** Other steps than those of the removals leave an open removal and its jobs alone, or end it. */
  lemma OtherSteps(e: Engine, a: Action)
    requires Inv(e) && !a.DoDispatch? && !a.DoAcknowledgeRemoval?
    ensures
      var next := Step(e, a);
      |next.tasks| == 1 && (next.tasks[0].Pruning? || next.tasks[0].Removing?) ==>
        (next.tasks == e.tasks && next.journal.jobs == e.journal.jobs) || (a.DoComplete? && next.tasks[0].Pruning?)
  {
    hide Step, Inv;
    if Foreign(a) && |e.tasks| == 1 {
      ForeignLeavesTask(e, a);
    } else if Foreign(a) {
      NothingOpens(e, a);
    } else {
      OwnSteps(e, a);
    }
  }

  lemma NothingOpens(e: Engine, a: Action)
    requires Inv(e) && Foreign(a) && |e.tasks| != 1
    ensures |Step(e, a).tasks| == 1 ==> !Step(e, a).tasks[0].Pruning? && !Step(e, a).tasks[0].Removing?
  {
    hide Inv, Launch, RunMaintenance, BeginRecovery, Step;
    if a.DoLaunch? {
      LaunchIs(e, a.id);
      LaunchOpens(e, a.id);
    } else if a.DoRunMaintenance? {
      MaintenanceIs(e, Early, 0, false);
      MaintenanceCloses(e, Early, 0, false);
    } else if a.DoBeginRecovery? {
      RecoveryIs(e, false);
      RecoveryCloses(e, false);
    } else {
      OtherTasks(e, a);
    }
  }

  lemma OtherTasks(e: Engine, a: Action)
    requires Foreign(a) && !a.DoLaunch? && !a.DoRunMaintenance? && !a.DoBeginRecovery?
    ensures Step(e, a).tasks == e.tasks
  {
    hide Step;
    if a.DoStart? || a.DoUpdate? || a.DoAcknowledge? || a.DoRequestMaintenance? || a.DoRecordChange? {
      JournalOnly(e, a);
    } else {
      FlagsOnly(e, a);
    }
  }

  lemma JournalOnly(e: Engine, a: Action)
    requires a.DoStart? || a.DoUpdate? || a.DoAcknowledge? || a.DoRequestMaintenance? || a.DoRecordChange?
    ensures Step(e, a).tasks == e.tasks
  {
    hide Start, Update, Acknowledge, RequestMaintenance, RecordChange, Appends;
    match a {
      case DoStart(id) => StartOnly(e, id);
      case DoUpdate(expected, enabled, hours, retention) => UpdateOnly(e, expected, enabled, hours, retention);
      case DoAcknowledge(n) => AcknowledgeOnly(e, n);
      case DoRequestMaintenance(target, restore) => RequestOnly(e, target, restore);
      case DoRecordChange => RecordOnly(e);
    }
  }

  lemma StartOnly(e: Engine, id: nat)
    ensures Start(e, id).tasks == e.tasks
  {
    hide Admitted, Appends;
  }

  lemma UpdateOnly(e: Engine, expected: nat, enabled: bool, hours: nat, retention: nat)
    ensures Update(e, expected, enabled, hours, retention).tasks == e.tasks
  {
    hide Audit, Room, Appends, Milliseconds, OffHostBusy, MaintenanceActive, AnyActive;
  }

  lemma AcknowledgeOnly(e: Engine, n: nat)
    ensures Acknowledge(e, n).tasks == e.tasks
  {
    hide After, Holds, Last;
  }

  lemma RequestOnly(e: Engine, target: nat, restore: bool)
    ensures RequestMaintenance(e, target, restore).tasks == e.tasks
  {
    hide Audit, Room, Appends, IndexOf, Active, OffHostBusy, MaintenanceActive, AnyActive;
  }

  lemma RecordOnly(e: Engine)
    ensures RecordChange(e).tasks == e.tasks
  {
    hide Audit, Appends;
  }

  lemma FlagsOnly(e: Engine, a: Action)
    requires a.Tick? || a.DoAcquireDownload? || a.DoReleaseDownload? || a.DoAskChange? || a.DoAllowChange? ||
             a.DoChangeStore? || a.DoStartReconcile? || a.DoEndReconcile?
    ensures Step(e, a).tasks == e.tasks
  {
    hide Room, Appends, OffHostBusy, MaintenanceActive, AnyActive;
  }

  lemma OwnSteps(e: Engine, a: Action)
    requires Inv(e) && !Foreign(a) && !a.DoDispatch? && !a.DoAcknowledgeRemoval?
    ensures
      var next := Step(e, a);
      |next.tasks| == 1 && (next.tasks[0].Pruning? || next.tasks[0].Removing?) ==>
        (next.tasks == e.tasks && next.journal.jobs == e.journal.jobs) || (a.DoComplete? && next.tasks[0].Pruning?)
  {
    hide Inv, Complete, Settle, Abort, Progress, FinishMaintenance, EndRecovery, Restart, Appends;
    match a {
      case DoComplete(t, ok, artifact, remote) => CompleteLeads(e, t, ok, artifact, remote);
      case DoSettle(t) => SettleEnds(e, t);
      case DoAbort(t) => AbortEnds(e, t);
      case DoProgress(t, phase, percent) => ProgressLeaves(e, t, phase, percent);
      case DoFinishMaintenance(t, ok) => FinishEnds(e, t, ok);
      case DoEndRecovery(t, ok) => RecoveryEnds(e, t, ok);
      case DoRestart(restored) => RestartEnds(e, restored);
    }
  }

  lemma CompleteLeads(e: Engine, t: nat, ok: bool, artifact: Option<nat>, remote: Remote)
    requires Inv(e)
    ensures
      var next := Complete(e, t, ok, artifact, remote);
      next == e || next.tasks == [] || (|next.tasks| == 1 && next.tasks[0].Pruning?)
  {
    hide Sound, TaskSound, Ordered, OffHostSound, Completed, IndexOf, Appends;
    if t < |e.tasks| { CloseKeeps(e, t); }
  }

  lemma SettleEnds(e: Engine, t: nat)
    requires Inv(e)
    ensures Settle(e, t) == e || Settle(e, t).tasks == []
  {
    hide Sound, TaskSound, Ordered, OffHostSound, Held, IndexOf, Appends;
    if t < |e.tasks| { CloseKeeps(e, t); }
  }

  lemma AbortEnds(e: Engine, t: nat)
    requires Inv(e)
    ensures Abort(e, t) == e || Abort(e, t).tasks == []
  {
    hide Inv, Appends;
    if t < |e.tasks| { CloseKeeps(e, t); }
  }

  lemma ProgressLeaves(e: Engine, t: nat, phase: Phase, percent: nat)
    ensures Progress(e, t, phase, percent).tasks == e.tasks
    ensures Progress(e, t, phase, percent).journal.jobs == e.journal.jobs
  {
    hide Appends;
  }

  lemma FinishEnds(e: Engine, t: nat, ok: bool)
    requires Inv(e)
    ensures FinishMaintenance(e, t, ok) == e || FinishMaintenance(e, t, ok).tasks == []
  {
    hide Inv, Ended, Appends;
    if t < |e.tasks| { CloseKeeps(e, t); }
  }

  lemma RecoveryEnds(e: Engine, t: nat, ok: bool)
    requires Inv(e)
    ensures EndRecovery(e, t, ok) == e || EndRecovery(e, t, ok).tasks == []
  {
    hide Inv, Recoverable, Audit, Listed, Appends;
    if t < |e.tasks| { CloseKeeps(e, t); }
  }

  lemma RestartEnds(e: Engine, restored: bool)
    ensures Restart(e, restored).tasks == []
  {
    hide BootMaintenance, BootJob, Appends;
  }

  /** A removal is dispatched for a plan, and a plan spares the last verified copy. */
  lemma DispatchSpares(e: Engine, t: nat)
    requires Inv(e) && Spares(e)
    ensures Spares(Dispatched(e, t))
  {
    hide Tally, Plan, Protected, JobsSound, Contiguous, MaintenanceSound, Reserved, Ordered, OffHostSound;
    if t < |e.tasks| && e.tasks[t].Pruning? {
      var jobs, id, retention := e.journal.jobs, e.tasks[t].id, e.journal.configuration.retention;
      PlanIs(jobs, id, retention);
      PlanSpares(jobs, id, retention);
    }
  }

  /** The candidate of a plan is never the last verified copy beside a failed upload. */
  lemma PlanSpares(jobs: seq<Job>, id: nat, retention: nat)
    requires Committed(jobs, id)
    ensures
      var p := Plan(jobs, id, retention);
      p.Removal? ==> forall i :: Protected(jobs, id, i) ==> p.candidate.id != jobs[i].id
  {
    hide Tally, Plan;
    PlanIs(jobs, id, retention);
    var p := Plan(jobs, id, retention);
    if p.Removal? {
      var c :| 0 <= c < |jobs| && p.candidate == jobs[c] && Goes(jobs, id, c);
      forall i | Protected(jobs, id, i) ensures p.candidate.id != jobs[i].id {
        assert i != c;
      }
    }
  }

  lemma StepSpares(e: Engine, a: Action)
    requires Inv(e) && Spares(e)
    ensures Spares(Step(e, a))
  {
    hide Inv, Step, Protected;
    if a.DoDispatch? {
      DispatchIs(e, a.task);
      DispatchSpares(e, a.task);
    } else if a.DoAcknowledgeRemoval? {
      RemovalEnds(e, a.task);
    } else {
      OtherSteps(e, a);
    }
  }

  lemma DispatchIs(e: Engine, t: nat)
    ensures Step(e, DoDispatch(t)) == Dispatched(e, t)
  {
    hide Dispatched, Appends;
  }

  lemma RemovalEnds(e: Engine, t: nat)
    requires Inv(e)
    ensures
      var next := Step(e, DoAcknowledgeRemoval(t));
      |next.tasks| == 1 && next.tasks[0].Removing? ==> next == e
  {
    hide Inv, Step, AcknowledgeRemoval;
    AcknowledgementIs(e, t);
    RemovalLeads(e, t);
  }

  lemma RemovalLeads(e: Engine, t: nat)
    requires Inv(e)
    ensures
      var next := AcknowledgeRemoval(e, t);
      next == e || next.tasks == [] || (|next.tasks| == 1 && next.tasks[0].Pruning?)
  {
    hide Sound, TaskSound, Ordered, OffHostSound, RemovalRecorded, Removable, Appends, Tally;
    if t < |e.tasks| { CloseKeeps(e, t); }
  }

  lemma {:induction false} RunSpares(e: Engine, actions: seq<Action>)
    requires Inv(e) && Spares(e)
    ensures Spares(Run(e, actions))
    decreases actions
  {
    hide Inv, Step, Spares;
    if actions != [] {
      StepKeeps(e, actions[0]);
      StepSpares(e, actions[0]);
      RunSpares(Step(e, actions[0]), actions[1..]);
    }
  }

  /** In every state of every run of a new store: what is being removed is not the last verified
      copy beside a failed upload. */
  lemma NoRunRemovesTheCopy(clock: nat, jobEvents: nat, actions: seq<Action>, id: nat, candidate: nat, i: int)
    requires jobEvents >= JOB_EVENTS
    requires
      var e := Run(NewEngine(clock, jobEvents), actions);
      e.tasks == [Removing(id, candidate)] && Protected(e.journal.jobs, id, i)
    ensures 0 <= i < |Run(NewEngine(clock, jobEvents), actions).journal.jobs|
    ensures Run(NewEngine(clock, jobEvents), actions).journal.jobs[i].id != candidate
  {
    hide Step, Run, Protected;
    NewEngineIsSound(clock, jobEvents);
    RunSpares(NewEngine(clock, jobEvents), actions);
    ProtectedIsListed(Run(NewEngine(clock, jobEvents), actions).journal.jobs, id, i);
  }

  // ---------- Until the backup is settled ----------

  /** An acknowledged removal leaves the last verified copy where it was. */
  lemma RemovalKeepsCopy(jobs: seq<Job>, id: nat, c: nat, i: int)
    requires Committed(jobs, id) && Tally(Retains, jobs) <= RETAINED_LIMIT
    requires c < |jobs| && jobs[c].id != id && jobs[c].state == Succeeded && jobs[c].retained
    requires Protected(jobs, id, i) && i != c
    ensures
      var next := Pruned(jobs, jobs[c].id, id);
      Protected(next, id, i) && next[i] == jobs[i]
  {
    hide Tally, Pruned, IndexOf;
    PruneStep(jobs, id, c);
    OtherThanFailed(jobs, id, i);
    var next := Pruned(jobs, jobs[c].id, id);
    var r :| 0 <= r < |jobs| && jobs[r].id == id && jobs[r].remote == UploadFailed;
    assert next[r].id == id && next[r].remote == UploadFailed;
    CopyStaysLast(jobs, next, i);
  }

  /** The copy is not the backup whose upload failed. */
  lemma OtherThanFailed(jobs: seq<Job>, id: nat, i: int)
    requires DistinctIds(jobs) && Protected(jobs, id, i)
    ensures jobs[i].id != id && forall k :: 0 <= k < |jobs| && jobs[k].id == id ==> jobs[k].remote == UploadFailed
  {
  }

  /** Flags that fall, or change on another job than an uploaded one, leave the last copy the last. */
  lemma CopyStaysLast(jobs: seq<Job>, next: seq<Job>, i: int)
    requires LastCopy(jobs, i) && SameButRetained(jobs, next) && next[i] == jobs[i]
    requires forall k :: 0 <= k < |jobs| && next[k].retained && !jobs[k].retained ==> jobs[k].remote != Uploaded
    ensures LastCopy(next, i)
  {
  }

  lemma RemovalStepKeepsCopy(e: Engine, t: nat, id: nat, i: int)
    requires Inv(e) && Spares(e) && Settling(e, id) && Protected(e.journal.jobs, id, i)
    ensures Settling(AcknowledgeRemoval(e, t), id) ==> Protected(AcknowledgeRemoval(e, t).journal.jobs, id, i)
  {
    hide Tally, Pruned, Protected, Contiguous, MaintenanceSound, Reserved, Ordered, OffHostSound, Audit;
    if t < |e.tasks| && e.tasks[t].Removing? {
      var jobs, candidate := e.journal.jobs, e.tasks[t].candidate;
      RemovedKeeps(e.journal, id, candidate);
      ProtectedIsListed(jobs, id, i);
      RemovalKeepsCopy(jobs, id, IndexOf(jobs, candidate), i);
      RecordedJobs(e.journal, id, candidate);
    }
  }

  lemma RecordedJobs(j: Journal, id: nat, candidate: nat)
    ensures
      var r := RemovalRecorded(j, id, candidate);
      r.Some? ==> r.value.jobs == Pruned(j.jobs, candidate, id)
  {
    hide Pruned, Room, Last, Appends;
  }

  lemma StepKeepsCopy(e: Engine, a: Action, id: nat, i: int)
    requires Inv(e) && Spares(e) && Settling(e, id) && Settling(Step(e, a), id) && Protected(e.journal.jobs, id, i)
    ensures Protected(Step(e, a).journal.jobs, id, i)
  {
    hide Inv, Step, Protected;
    if a.DoDispatch? {
      DispatchIs(e, a.task);
      DispatchLeaves(e, a.task);
    } else if a.DoAcknowledgeRemoval? {
      AcknowledgementIs(e, a.task);
      RemovalStepKeepsCopy(e, a.task, id, i);
    } else {
      OtherSteps(e, a);
      if a.DoComplete? { CompleteIdles(e, a); }
    }
  }

  lemma DispatchLeaves(e: Engine, t: nat)
    ensures Dispatched(e, t).journal == e.journal
  {
    hide Plan, Appends;
  }

  lemma AcknowledgementIs(e: Engine, t: nat)
    ensures Step(e, DoAcknowledgeRemoval(t)) == AcknowledgeRemoval(e, t)
  {
    hide AcknowledgeRemoval, Appends;
  }

  lemma CompleteIdles(e: Engine, a: Action)
    requires a.DoComplete? && |e.tasks| == 1 && !e.tasks[0].Backup?
    ensures Step(e, a) == e
  {
    hide Appends, Completed, IndexOf;
  }

  /** From its success on the backup is being settled all the time. */
  predicate Throughout(e: Engine, actions: seq<Action>, id: nat)
    decreases actions
  {
    Settling(e, id) && (actions == [] || Throughout(Step(e, actions[0]), actions[1..], id))
  }

  /** Until a backup whose upload failed is settled, the last verified copy stays listed, retained
      and protected, whatever runs beside it. */
  lemma {:induction false} CopyOutlasts(e: Engine, actions: seq<Action>, id: nat, i: int)
    requires Inv(e) && Spares(e) && Throughout(e, actions, id) && Protected(e.journal.jobs, id, i)
    ensures Protected(Run(e, actions).journal.jobs, id, i)
    decreases actions
  {
    hide Inv, Step, Spares, Protected, Settling;
    if actions != [] {
      var next := Step(e, actions[0]);
      StepKeeps(e, actions[0]);
      StepSpares(e, actions[0]);
      ThroughoutNow(next, actions[1..], id);
      StepKeepsCopy(e, actions[0], id, i);
      CopyOutlasts(next, actions[1..], id, i);
    }
  }

  lemma ThroughoutNow(e: Engine, actions: seq<Action>, id: nat)
    requires Throughout(e, actions, id)
    ensures Settling(e, id)
  {
    hide Step;
  }
}
