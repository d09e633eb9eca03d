/** The late success of a restore.  A request for a restore asks for four places, the last of them
    for the record that a later boot completed it.  Once the restore has failed or was interrupted
    nothing keeps that place: an update, a remote change or the last removal of a backup may take
    it, and then the recovery throws at its end and every retry does until events are acknowledged. */
module BackupLate {
  import opened Durability
  import opened BackupJournal
  import opened BackupRetention
  import opened BackupEngine
  import opened BackupSafety
  import opened BackupRuns
  import opened BackupExposure

  /** The late record of an open restore would find a place. */
  predicate Heard(j: Journal) {
    Recoverable(j) ==> Room(j) >= 1
  }

  /** What a caller can see before a step: a restore is open, one place is left, and the step is an
      update, a remote change or a removal that will be accepted. */
  predicate Crowds(e: Engine, a: Action) {
    && Recoverable(e.journal) && Room(e.journal) == 1
    && match a
       case DoUpdate(expected, _, hours, retention) =>
         && 1 <= hours <= 8760 && 1 <= retention <= 50 && expected == e.journal.configuration.revision
         && !OffHostBusy(e) && !e.executing && !AnyActive(e.journal)
       case DoRecordChange => e.reconciling && e.pending && !e.recorded
       case DoAcknowledgeRemoval(t) => t < |e.tasks| && e.tasks[t].Removing?
       case _ => false
  }

  /** The end of a recovery, exactly: it is refused if and only if no place is left, and then
      nothing but the task is over. */
  lemma RefusedIffFull(e: Engine)
    requires Inv(e) && e.tasks == [Recovering]
    ensures
      var j, next := e.journal, EndRecovery(e, 0, true);
      if Room(j) == 0 then next == e.(executing := false, tasks := [], unheard := true)
      else
        && next == e.(executing := false, tasks := [], journal := next.journal)
        && next.journal == j.(maintenance := next.journal.maintenance, events := next.journal.events)
        && Succeeds(j, next.journal) && |next.journal.events| == |j.events| + 1
        && next.journal.events[|j.events|].kind == RestoreSucceeded
  {
    hide Tally, JobsSound, MaintenanceSound, Reserved, Ordered, OffHostSound;
    RoomIsNat(e.journal);
    RecoveredKeeps(e.journal, e.journal.maintenance.value.(state := Succeeded, phase := Finished, percent := 100));
  }

  /** The open restore of `j` is recorded as a success in `r`. */
  predicate Succeeds(j: Journal, r: Journal) {
    j.maintenance.Some? &&
    r.maintenance == Some(j.maintenance.value.(state := Succeeded, phase := Finished, percent := 100))
  }

  // ---------- Which steps take the place ----------

  lemma UpdateHears(e: Engine, expected: nat, enabled: bool, hours: nat, retention: nat)
    requires Inv(e) && Heard(e.journal)
    ensures Heard(Update(e, expected, enabled, hours, retention).journal) <==>
              !Crowds(e, DoUpdate(expected, enabled, hours, retention))
  {
    hide Tally, Sound, Exclusive, OffHostSound, Ordered, Milliseconds;
    UpdateTakes(e, expected, enabled, hours, retention);
  }

  lemma RecordHears(e: Engine)
    requires Inv(e) && Heard(e.journal)
    ensures Heard(RecordChange(e).journal) <==> !Crowds(e, DoRecordChange)
  {
    hide Tally, JobsSound, MaintenanceSound, Reserved, Exclusive, OffHostSound, Ordered, Room;
    if e.reconciling && e.pending && !e.recorded && Room(e.journal) >= 1 {
      AuditKeeps(e.journal, OffHostUpdated, None);
    }
  }

  lemma RemovalHears(e: Engine, t: nat)
    requires Inv(e) && Heard(e.journal)
    ensures Heard(AcknowledgeRemoval(e, t).journal) <==> !Crowds(e, DoAcknowledgeRemoval(t))
  {
    hide Tally, Pruned, Audit, JobsSound, Contiguous, MaintenanceSound, Reserved, Committed, Room, Ordered;
    if t < |e.tasks| && e.tasks[t].Removing? {
      RemovedKeeps(e.journal, e.tasks[t].id, e.tasks[t].candidate);
    }
  }

  lemma StartHears(e: Engine, id: nat)
    requires Inv(e) && Heard(e.journal)
    ensures Heard(Start(e, id).journal)
  {
    hide Inv, Admitted, Room;
    if Admitted(e, id, None).Some? { AdmittedKeeps(e, id, None); Reservation(e); }
  }

  lemma Reservation(e: Engine)
    requires Inv(e)
    ensures e.jobEvents >= JOB_EVENTS && Sound(e.journal)
  {
  }

  lemma LaunchHears(e: Engine, id: nat)
    requires Inv(e) && Heard(e.journal)
    ensures Heard(Launch(e, id).journal)
  {
    hide Tally, Begun, Admitted, NextRun, Contiguous, MaintenanceSound, Room, DistinctIds, Recoverable, Last;
    var j, k := e.journal, First(Waits, e.journal.jobs);
    WorksSplit(j.jobs);
    NoFirst(Waits, j.jobs);
    NoFirst(Runs, j.jobs);
    if Launch(e, id) == e {
    } else if k < |j.jobs| {
      if !MaintenanceActive(j) && First(Runs, j.jobs) == |j.jobs| { BegunKeeps(j, k); }
    } else {
      var due := j.configuration.next.value;
      AdmittedKeeps(e, id, Some(due));
      var r := Admitted(e, id, Some(due)).value;
      var next := NextRun(due, e.clock, Milliseconds(j.configuration.hours));
      var draft := r.(configuration := r.configuration.(next := Some(next)));
      Reconfigured(r, draft.configuration);
      BegunKeeps(draft, |draft.jobs| - 1);
    }
  }

  lemma CompleteHears(e: Engine, t: nat, ok: bool, artifact: Option<nat>, remote: Remote)
    requires Inv(e) && Heard(e.journal)
    ensures Heard(Complete(e, t, ok, artifact, remote).journal)
  {
    hide Tally, Completed, Room, Last, JobsSound, Contiguous, MaintenanceSound, Recoverable;
    if t < |e.tasks| && e.tasks[t].Backup? {
      CompletedKeeps(e.journal, IndexOf(e.journal.jobs, e.tasks[t].id), ok, artifact, remote);
    }
  }

  lemma SettleHears(e: Engine, t: nat)
    requires Inv(e) && Heard(e.journal)
    ensures Heard(Settle(e, t).journal)
  {
    hide Tally, Held, JobsSound, Contiguous, MaintenanceSound, Reserved, Room, Ordered, Committed;
    if t < |e.tasks| && (e.tasks[t].Pruning? || e.tasks[t].Removing?) { SettledKeeps(e.journal, e.tasks[t].id); }
  }

  lemma AcknowledgeHears(e: Engine, n: nat)
    requires Inv(e) && Heard(e.journal)
    ensures Heard(Acknowledge(e, n).journal)
  {
    hide Inv, Room;
    AcknowledgeKeeps(e, n);
  }

  lemma RequestHears(e: Engine, target: nat, restore: bool)
    requires Heard(e.journal)
    ensures Heard(RequestMaintenance(e, target, restore).journal)
  {
    hide Room, IndexOf, Appends;
    var next := RequestMaintenance(e, target, restore);
    if next != e { assert next.journal.maintenance == Some(Maintenance(target, restore, Queued, Early, 0)); }
  }

  lemma RunMaintenanceHears(e: Engine)
    requires Heard(e.journal)
    ensures Heard(BackupEngine.RunMaintenance(e).journal)
  {
    hide Room, IndexOf, Appends;
    var next := BackupEngine.RunMaintenance(e);
    if next.journal != e.journal { assert next.journal.maintenance.value.state == Running; }
  }

  lemma ProgressHears(e: Engine, t: nat, phase: Phase, percent: nat)
    requires Heard(e.journal)
    ensures Heard(Progress(e, t, phase, percent).journal)
  {
    hide Room, Appends;
    var next := Progress(e, t, phase, percent);
    if next != e { assert next.journal.maintenance.value.state == Running; }
  }

  /** A restore that fails at its end still has the last of its four places. */
  lemma FinishHears(e: Engine, t: nat, ok: bool)
    requires Inv(e) && Heard(e.journal)
    ensures Heard(FinishMaintenance(e, t, ok).journal)
  {
    hide Tally, JobsSound, Reserved, OffHostSound, Ordered, Without;
    if t < |e.tasks| && e.tasks[t] == Maintaining {
      EndedKeeps(e.journal, ok);
    }
  }

  lemma EndRecoveryHears(e: Engine, t: nat, ok: bool)
    requires Inv(e) && Heard(e.journal)
    ensures Heard(EndRecovery(e, t, ok).journal) && EndRecovery(e, t, ok).unheard == e.unheard
  {
    hide Tally, Sound, OffHostSound, Ordered;
  }

  lemma RestartHears(e: Engine, restored: bool)
    requires Inv(e) && Heard(e.journal)
    ensures Heard(Restart(e, restored).journal)
  {
    hide Tally, JobsSound, OffHostSound, Ordered, Exclusive, First;
    var j := e.journal;
    WorksSplit(j.jobs);
    NoFirst(Runs, j.jobs);
    BootMaintenanceKeeps(j, restored);
    BootJobKeeps(BootMaintenance(j, restored).value);
  }

  /** Every step, exactly: the place of a late record stays unless the step takes it. */
  lemma StepHears(e: Engine, a: Action)
    requires Inv(e) && Heard(e.journal)
    ensures Heard(Step(e, a).journal) <==> !Crowds(e, a)
    ensures Step(e, a).unheard == e.unheard
  {
    hide Inv, Heard, Start, Launch, Complete, Dispatched, AcknowledgeRemoval, Settle, Update, Acknowledge,
      RequestMaintenance, BackupEngine.RunMaintenance, Progress, FinishMaintenance, BeginRecovery, EndRecovery,
      AcquireDownload, ReleaseDownload, AskChange, AllowChange, ChangeStore, StartReconcile, RecordChange, EndReconcile,
      Restart, Close, Appends, Abort;
    match a {
      case DoStart(id) => StartHears(e, id);
      case DoLaunch(id) => LaunchHears(e, id);
      case DoComplete(t, ok, artifact, remote) => CompleteHears(e, t, ok, artifact, remote);
      case DoAcknowledgeRemoval(t) => RemovalHears(e, t);
      case DoSettle(t) => SettleHears(e, t);
      case DoUpdate(expected, enabled, hours, retention) => UpdateHears(e, expected, enabled, hours, retention);
      case DoAcknowledge(n) => AcknowledgeHears(e, n);
      case DoRequestMaintenance(target, restore) => RequestHears(e, target, restore);
      case DoRunMaintenance => RunMaintenanceHears(e);
      case DoProgress(t, phase, percent) => ProgressHears(e, t, phase, percent);
      case DoFinishMaintenance(t, ok) => FinishHears(e, t, ok);
      case DoEndRecovery(t, ok) => EndRecoveryHears(e, t, ok);
      case DoRecordChange => RecordHears(e);
      case DoRestart(restored) => RestartHears(e, restored);
      case _ => SameJournal(e, a);
    }
  }

  lemma SameJournal(e: Engine, a: Action)
    requires a.Tick? || a.DoDispatch? || a.DoAbort? || a.DoBeginRecovery? || a.DoAcquireDownload? ||
             a.DoReleaseDownload? || a.DoAskChange? || a.DoAllowChange? || a.DoChangeStore? || a.DoStartReconcile? ||
             a.DoEndReconcile?
    ensures Step(e, a).journal == e.journal && Step(e, a).unheard == e.unheard
  {
    hide Tally, Room, Plan, Recoverable;
  }

  /** Who takes the last place: an update or a remote change while nothing is active, or, with the
      configured reservation only, a removal of a funded backup. */
  lemma WhoCrowds(e: Engine, a: Action)
    requires Inv(e) && Funded(e) && Crowds(e, a)
    ensures a.DoUpdate? || a.DoRecordChange? || a.DoAcknowledgeRemoval?
    ensures a.DoAcknowledgeRemoval? ==> e.jobEvents == JOB_EVENTS
    ensures !a.DoAcknowledgeRemoval? ==>
              Tally(Works, e.journal.jobs) == 0 && !MaintenanceActive(e.journal) && e.tasks == []
  {
    hide Tally, Sound, Room, Ordered, Removals;
  }

  // ---------- Over whole runs ----------

  /** No step of the run takes the last place of an open restore. */
  ghost predicate Uncrowded(e: Engine, actions: seq<Action>)
    decreases actions
  {
    actions == [] || (!Crowds(e, actions[0]) && Uncrowded(Step(e, actions[0]), actions[1..]))
  }

  lemma {:induction false} UncrowdedIsHeard(e: Engine, actions: seq<Action>)
    requires Inv(e) && Heard(e.journal) && Uncrowded(e, actions)
    ensures Heard(Run(e, actions).journal) && Run(e, actions).unheard == e.unheard
    decreases actions
  {
    hide Inv, Step, Heard, Crowds;
    if actions != [] {
      StepKeeps(e, actions[0]);
      StepHears(e, actions[0]);
      UncrowdedIsHeard(Step(e, actions[0]), actions[1..]);
    }
  }

  /** What a later boot does: reconcile the remote store, then prove the restore. */
  function Reboot(): seq<Action> {
    [DoRestart(false), DoStartReconcile, DoEndReconcile(true, false)]
  }

  function Recovery(): seq<Action> {
    [DoBeginRecovery, DoEndRecovery(0, true)]
  }

  /** With a full journal and an open restore the reboot leaves the journal alone. */
  lemma FullRestart(e: Engine)
    requires Inv(e) && Recoverable(e.journal) && Room(e.journal) == 0
    ensures
      var next := Restart(e, false);
      && next.journal == e.journal && next.tasks == [] && !next.downloading && next.change == NoChange
      && next.blocked && !next.reconciling && (next.pending ==> next.recorded)
  {
    hide Tally, JobsSound, Contiguous, MaintenanceSound, Ordered, First, Room;
    WorksSplit(e.journal.jobs);
    NoFirst(Runs, e.journal.jobs);
  }

  lemma FullReboot(e: Engine) returns (last: Engine)
    requires Inv(e) && Recoverable(e.journal) && Room(e.journal) == 0
    ensures last == Run(e, Reboot()) && Inv(last) && last.journal == e.journal
    ensures last.tasks == [] && !last.downloading && !OffHostBusy(last)
  {
    hide Inv, Recoverable, Room, Restart, Run, Step;
    FullRestart(e);
    var e1 := Restart(e, false);
    var e2 := StartReconcile(e1);
    last := EndReconcile(e2, true, false);
    RestartIs(e);
    ReconcileSteps(e1);
    ReconcileSteps(e2);
    RunTwo(e, DoRestart(false), DoStartReconcile);
    RunTwo(e2, DoEndReconcile(true, false), DoEndReconcile(true, false));
    RunJoins(e, [DoRestart(false), DoStartReconcile], [DoEndReconcile(true, false)]);
    assert Reboot() == [DoRestart(false), DoStartReconcile] + [DoEndReconcile(true, false)];
    RunKeepsInv(e, Reboot());
  }

  lemma RestartIs(e: Engine)
    ensures Step(e, DoRestart(false)) == Restart(e, false)
  {
    hide Restart, Appends;
  }

  lemma RecoverySteps(e: Engine)
    ensures Step(e, DoBeginRecovery) == BeginRecovery(e) && Step(e, DoEndRecovery(0, true)) == EndRecovery(e, 0, true)
  {
    hide BeginRecovery, EndRecovery, Appends;
  }

  /** A recovery that may begin and is proved, to its end. */
  lemma RecoveryRuns(e: Engine) returns (mid: Engine)
    requires Inv(e) && Recoverable(e.journal) && e.tasks == [] && !e.downloading && !OffHostBusy(e)
    ensures mid == e.(executing := true, tasks := [Recovering]) && Inv(mid)
    ensures Run(e, Recovery()) == EndRecovery(mid, 0, true)
  {
    hide Sound, OffHostSound, Ordered, Tally, EndRecovery, Run, Recoverable;
    BeginRecoveryKeeps(e);
    mid := BeginRecovery(e);
    RecoverySteps(e);
    RecoverySteps(mid);
    RunTwo(e, DoBeginRecovery, DoEndRecovery(0, true));
  }

  /** From every state whose last place is taken, the next boot's recovery is refused. */
  lemma CrowdedIsRefused(e: Engine)
    requires Inv(e) && !Heard(e.journal)
    ensures Uncrowded(e, Reboot() + Recovery()) && Run(e, Reboot() + Recovery()).unheard
    ensures Run(e, Reboot() + Recovery()).journal == e.journal
  {
    hide Inv, Recoverable, Room, EndRecovery, OffHostBusy, Run, Uncrowded;
    FullIsZero(e);
    var idle := FullReboot(e);
    var mid := RecoveryRuns(idle);
    RefusedIffFull(mid);
    RunJoins(e, Reboot(), Recovery());
    OtherActions(e, Reboot() + Recovery());
  }

  lemma FullIsZero(e: Engine)
    requires Inv(e) && !Heard(e.journal)
    ensures Recoverable(e.journal) && Room(e.journal) == 0
  {
    hide Room, Recoverable;
    RoomIsNat(e.journal);
  }

  lemma {:induction false} OtherActions(e: Engine, actions: seq<Action>)
    requires forall a :: a in actions ==> !a.DoUpdate? && !a.DoRecordChange? && !a.DoAcknowledgeRemoval?
    ensures Uncrowded(e, actions)
    decreases actions
  {
    hide Step;
    if actions != [] {
      assert actions[0] in actions && forall a :: a in actions[1..] ==> a in actions;
      OtherActions(Step(e, actions[0]), actions[1..]);
    }
  }

  /** The exact condition, for every state and everything that may follow: the late record of a
      restore can be refused with no further step to blame if and only if its place is taken. */
  lemma RefusedIffCrowded(e: Engine)
    requires Inv(e) && !e.unheard
    ensures Heard(e.journal) <==> forall actions :: Uncrowded(e, actions) ==> !Run(e, actions).unheard
  {
    hide Inv, Heard, Run, Uncrowded;
    if Heard(e.journal) {
      forall actions | Uncrowded(e, actions) ensures !Run(e, actions).unheard { UncrowdedIsHeard(e, actions); }
    } else {
      CrowdedIsRefused(e);
    }
  }

  /** So the step that takes the place decides it. */
  lemma CrowdingDecides(e: Engine, a: Action)
    requires Inv(e) && Heard(e.journal) && !e.unheard
    ensures Crowds(e, a) <==>
              exists more :: Uncrowded(Step(e, a), more) && Run(Step(e, a), more).unheard
  {
    hide Inv, Heard, Crowds, Step, Run, Uncrowded;
    StepKeeps(e, a);
    StepHears(e, a);
    RefusedIffCrowded(Step(e, a));
  }

  /** Of a run that is careful with requests and takes no last place nothing at all is refused. */
  lemma NothingIsRefused(e: Engine, actions: seq<Action>)
    requires Inv(e) && Funded(e) && Heard(e.journal) && !e.stranded && !e.unheard
    requires Careful(e, actions) && Uncrowded(e, actions)
    ensures !Run(e, actions).stranded && !Run(e, actions).unheard
  {
    hide Inv, Funded, Heard, Careful, Uncrowded, Run;
    AcceptedWorkCommits(e, actions);
    UncrowdedIsHeard(e, actions);
  }

  // ---------- Trying again ----------

  /** What an acknowledgement of everything leaves. */
  lemma AllAcknowledged(e: Engine)
    requires Inv(e) && e.journal.events != []
    ensures
      var j, next := e.journal, Acknowledge(e, Last(e.journal));
      && Inv(next) && next == e.(journal := next.journal) && Last(next.journal) == Last(j)
      && next.journal == j.(acknowledged := Last(j), events := [])
  {
    hide Tally, JobsSound, MaintenanceSound, Reserved, Ordered, OffHostSound, Exclusive, After, Funded;
    var j := e.journal;
    AcknowledgeKeeps(e, Last(j));
    assert j.events[|j.events| - 1].sequence == Last(j);
    AfterIs(j.events, j.acknowledged + 1, Last(j));
  }

  /** The consumer catches up and the recovery is tried again: now it is recorded. */
  lemma RetryRecords(e: Engine)
    requires Inv(e) && Recoverable(e.journal) && e.tasks == [] && !e.downloading && !OffHostBusy(e)
    requires e.journal.events != [] && Last(e.journal) < SAFE_INTEGER
    ensures Succeeds(e.journal, Run(e, [DoAcknowledge(Last(e.journal))] + Recovery()).journal)
  {
    hide Inv, Run, Acknowledge, EndRecovery, OffHostBusy;
    var a := DoAcknowledge(Last(e.journal));
    AllAcknowledged(e);
    var next := Acknowledge(e, Last(e.journal));
    assert OffHostBusy(next) == OffHostBusy(e) by { BusySame(e, next); }
    var mid := RecoveryRuns(next);
    RefusedIffFull(mid);
    RunTwo(e, a, a);
    RunJoins(e, [a], Recovery());
  }

  lemma BusySame(e: Engine, next: Engine)
    requires next == e.(journal := next.journal)
    ensures OffHostBusy(next) == OffHostBusy(e)
  {
  }

  /** Without numbers nothing is recorded any more, and an open restore stays as it is. */
  lemma ExhaustedStep(e: Engine, a: Action)
    requires Inv(e) && Recoverable(e.journal) && Last(e.journal) == SAFE_INTEGER
    ensures
      var next := Step(e, a);
      next.journal.maintenance == e.journal.maintenance && Last(next.journal) == SAFE_INTEGER
  {
    hide Step, Inv, Last;
    ExhaustedMaintenance(e, a);
    StepExtends(e, a);
    StepKeeps(e, a);
    LastIsSafe(Step(e, a));
  }

  lemma LastIsSafe(e: Engine)
    requires Inv(e)
    ensures Last(e.journal) <= SAFE_INTEGER
  {
    hide Tally;
  }

  lemma ExhaustedMaintenance(e: Engine, a: Action)
    requires Inv(e) && Recoverable(e.journal) && Last(e.journal) == SAFE_INTEGER
    ensures Step(e, a).journal.maintenance == e.journal.maintenance
  {
    hide Inv, Last, Recoverable, Step;
    if a.DoRequestMaintenance? || a.DoRunMaintenance? || a.DoProgress? || a.DoFinishMaintenance? ||
       a.DoEndRecovery? || a.DoRestart?
    {
      NothingToMaintain(e, a);
    } else if a.DoStart? || a.DoLaunch? || a.DoComplete? || a.DoAcknowledgeRemoval? || a.DoSettle? {
      JobsOnly(e, a);
    } else if a.DoUpdate? || a.DoAcknowledge? || a.DoRecordChange? {
      ControlsOnly(e, a);
    } else {
      SameJournal(e, a);
    }
  }

  lemma NothingToMaintain(e: Engine, a: Action)
    requires Inv(e) && Recoverable(e.journal) && Last(e.journal) == SAFE_INTEGER
    requires a.DoRequestMaintenance? || a.DoRunMaintenance? || a.DoProgress? || a.DoFinishMaintenance? ||
             a.DoEndRecovery? || a.DoRestart?
    ensures Step(e, a).journal.maintenance == e.journal.maintenance
  {
    hide Inv, Recoverable, Last, RequestMaintenance, BackupEngine.RunMaintenance, Progress, FinishMaintenance,
      EndRecovery, Restart, Appends;
    match a {
      case DoRequestMaintenance(target, restore) => RequestRefused(e, target, restore);
      case DoRunMaintenance => NothingQueued(e);
      case DoProgress(t, phase, percent) => NoProgress(e, t, phase, percent);
      case DoFinishMaintenance(t, ok) => NoFinish(e, t, ok);
      case DoEndRecovery(t, ok) => EndRefused(e, t, ok);
      case DoRestart(restored) => RestartOpen(e, restored);
    }
  }

  lemma RequestRefused(e: Engine, target: nat, restore: bool)
    requires Last(e.journal) == SAFE_INTEGER
    ensures RequestMaintenance(e, target, restore) == e
  {
    hide Audit, Appends;
  }

  lemma NothingQueued(e: Engine)
    requires Recoverable(e.journal)
    ensures BackupEngine.RunMaintenance(e) == e
  {
    hide Audit, Appends;
  }

  /** A restore that is open is not running, so no task maintains it. */
  lemma NoMaintaining(e: Engine, t: nat)
    requires Inv(e) && Recoverable(e.journal)
    ensures t < |e.tasks| ==> e.tasks[t] != Maintaining
  {
    hide Sound, OffHostSound, Ordered;
  }

  lemma NoProgress(e: Engine, t: nat, phase: Phase, percent: nat)
    requires Inv(e) && Recoverable(e.journal)
    ensures Progress(e, t, phase, percent) == e
  {
    hide Inv, Recoverable, Appends;
    NoMaintaining(e, t);
  }

  lemma NoFinish(e: Engine, t: nat, ok: bool)
    requires Inv(e) && Recoverable(e.journal)
    ensures FinishMaintenance(e, t, ok) == e
  {
    hide Inv, Recoverable, Appends, Ended;
    NoMaintaining(e, t);
  }

  lemma EndRefused(e: Engine, t: nat, ok: bool)
    requires Last(e.journal) == SAFE_INTEGER
    ensures EndRecovery(e, t, ok).journal == e.journal
  {
    hide Recoverable, Appends;
  }

  lemma RestartOpen(e: Engine, restored: bool)
    requires Recoverable(e.journal)
    ensures Restart(e, restored).journal.maintenance == e.journal.maintenance
  {
    hide First, Room, Appends;
  }

  lemma JobsOnly(e: Engine, a: Action)
    requires a.DoStart? || a.DoLaunch? || a.DoComplete? || a.DoAcknowledgeRemoval? || a.DoSettle?
    ensures Step(e, a).journal.maintenance == e.journal.maintenance
  {
    hide Start, Launch, Complete, AcknowledgeRemoval, Settle, Appends;
    match a {
      case DoStart(id) => AdmissionOnly(e, id);
      case DoLaunch(id) => LaunchOnly(e, id);
      case DoComplete(t, ok, artifact, remote) => CompletionOnly(e, t, ok, artifact, remote);
      case DoAcknowledgeRemoval(t) => RemovalOnly(e, t);
      case DoSettle(t) => SettleOnly(e, t);
    }
  }

  lemma AdmissionOnly(e: Engine, id: nat)
    ensures Start(e, id).journal.maintenance == e.journal.maintenance
  {
    hide Admitted, Appends;
    AdmittedOnly(e, id, None);
  }

  lemma AdmittedOnly(e: Engine, id: nat, slot: Option<nat>)
    ensures Admitted(e, id, slot).Some? ==> Admitted(e, id, slot).value.maintenance == e.journal.maintenance
  {
    hide Tally, Room, Last, Trimmed, Appends, IndexOf, OffHostBusy, MaintenanceActive;
  }

  lemma BeginOnly(e: Engine, j: Journal, i: nat, slots: seq<nat>)
    requires i < |j.jobs| && j.maintenance == e.journal.maintenance
    ensures Begin(e, j, i, slots).journal.maintenance == e.journal.maintenance
  {
    hide Room, Last, Appends;
  }

  lemma LaunchOnly(e: Engine, id: nat)
    ensures Launch(e, id).journal.maintenance == e.journal.maintenance
  {
    hide Admitted, Begin, Appends, First, NextRun, OffHostBusy, MaintenanceActive;
    var j := e.journal;
    if Launch(e, id) != e {
      if First(Waits, j.jobs) < |j.jobs| {
        BeginOnly(e, j, First(Waits, j.jobs), e.slots);
      } else {
        var due := j.configuration.next.value;
        AdmittedOnly(e, id, Some(due));
        var r := Admitted(e, id, Some(due)).value;
        var next := NextRun(due, e.clock, Milliseconds(j.configuration.hours));
        var draft := r.(configuration := r.configuration.(next := Some(next)));
        BeginOnly(e, draft, |draft.jobs| - 1, e.slots + [due]);
      }
    }
  }

  lemma CompletionOnly(e: Engine, t: nat, ok: bool, artifact: Option<nat>, remote: Remote)
    ensures Complete(e, t, ok, artifact, remote).journal.maintenance == e.journal.maintenance
  {
    hide Tally, Room, Last, Trimmed, Appends, IndexOf;
  }

  lemma RemovalOnly(e: Engine, t: nat)
    ensures AcknowledgeRemoval(e, t).journal.maintenance == e.journal.maintenance
  {
    hide Removable, RemovalRecorded, Close, Appends;
    if t < |e.tasks| && e.tasks[t].Removing? { RecordedOnly(e.journal, e.tasks[t].id, e.tasks[t].candidate); }
  }

  lemma RecordedOnly(j: Journal, id: nat, candidate: nat)
    ensures
      var r := RemovalRecorded(j, id, candidate);
      r.Some? ==> r.value.maintenance == j.maintenance
  {
    hide Pruned, Room, Last, Appends;
  }

  lemma SettleOnly(e: Engine, t: nat)
    ensures Settle(e, t).journal.maintenance == e.journal.maintenance
  {
    hide Held, IndexOf, Close, Appends;
  }

  lemma ControlsOnly(e: Engine, a: Action)
    requires a.DoUpdate? || a.DoAcknowledge? || a.DoRecordChange?
    ensures Step(e, a).journal.maintenance == e.journal.maintenance
  {
    hide Tally, Room, Last, Appends, Milliseconds, After, Holds;
  }

  lemma {:induction false} ExhaustedRun(e: Engine, actions: seq<Action>)
    requires Inv(e) && Recoverable(e.journal) && Last(e.journal) == SAFE_INTEGER
    ensures Run(e, actions).journal.maintenance == e.journal.maintenance
    decreases actions
  {
    hide Inv, Step, Last;
    if actions != [] {
      StepKeeps(e, actions[0]);
      ExhaustedStep(e, actions[0]);
      ExhaustedRun(Step(e, actions[0]), actions[1..]);
    }
  }

  /** A refused recovery can still be recorded if and only if a number is left. */
  lemma RetryIff(e: Engine)
    requires Inv(e) && !Heard(e.journal) && e.tasks == [] && !e.downloading && !OffHostBusy(e)
    ensures Last(e.journal) < SAFE_INTEGER <==> exists actions :: Succeeds(e.journal, Run(e, actions).journal)
  {
    hide Inv, Run, OffHostBusy;
    LastIsSafe(e);
    FullIsZero(e);
    if Last(e.journal) < SAFE_INTEGER {
      RetryRecords(e);
    } else {
      forall actions ensures !Succeeds(e.journal, Run(e, actions).journal) { ExhaustedRun(e, actions); }
    }
  }

  // ---------- It happens ----------

  ghost predicate Open(e: Engine) {
    && Inv(e) && Recoverable(e.journal) && e.tasks == [] && !OffHostBusy(e) && Tally(Works, e.journal.jobs) == 0
  }

  lemma OpenUpdates(e: Engine)
    requires Open(e) && Room(e.journal) >= 1
    ensures
      var c := e.journal.configuration;
      var next := Update(e, c.revision, c.enabled, 1, 1);
      Open(next) && Room(next.journal) == Room(e.journal) - 1
  {
    hide Tally, Sound, OffHostSound, Ordered, Milliseconds;
    var c := e.journal.configuration;
    UpdateTakes(e, c.revision, c.enabled, 1, 1);
  }

  /** Updates take one place after the other. */
  lemma {:induction false} UpdatesFill(e: Engine) returns (actions: seq<Action>)
    requires Open(e) && Room(e.journal) >= 0
    ensures Open(Run(e, actions)) && Room(Run(e, actions).journal) == 0
    decreases Room(e.journal)
  {
    hide Open, Room, Update;
    actions := [];
    if Room(e.journal) > 0 {
      OpenUpdates(e);
      var c := e.journal.configuration;
      var a := DoUpdate(c.revision, c.enabled, 1, 1);
      var more := UpdatesFill(Step(e, a));
      RunTwo(e, a, a);
      RunJoins(e, [a], more);
      actions := [a] + more;
    }
  }

  lemma ExposedIsOpen(e: Engine)
    requires Inv(e) && Exposed(e) && Admitted(e, RETAINED_LIMIT, None).Some?
    ensures Open(e) && Room(e.journal) >= 0
  {
    hide Tally, Room, Contiguous, JobsSound, MaintenanceSound, Reserved, Ordered, OffHostSound;
    RoomIsNat(e.journal);
  }

  /** Some run of a new store comes to a recovery whose record is refused. */
  lemma RefusalIsReachable()
    ensures exists actions :: Run(NewEngine(0, JOB_EVENTS), actions).unheard
  {
    hide Inv, Open, Exposed, Admitted, Run, Room, Recoverable, NewEngine;
    var first, e := ReachExposure();
    ExposedIsOpen(e);
    var updates := UpdatesFill(e);
    var full := Run(e, updates);
    OpenIs(full);
    CrowdedIsRefused(full);
    RunJoins(NewEngine(0, JOB_EVENTS), first, updates);
    RunJoins(NewEngine(0, JOB_EVENTS), first + updates, Reboot() + Recovery());
  }

  lemma OpenIs(e: Engine)
    requires Open(e)
    ensures Inv(e) && Recoverable(e.journal)
  {
    hide Inv;
  }
}
