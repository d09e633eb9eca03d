/** `tick` as it is written: one operation after the other, with everything else that the engine
    serves happening whenever it waits.  Each method is a run of the engine's steps and closes
    what it opened. */
module BackupTick {
  import opened Durability
  import opened BackupJournal
  import opened BackupRetention
  import opened BackupEngine
  import opened BackupSafety
  import opened BackupRuns
  import opened BackupLate
  import opened BackupAcceptance

  ghost predicate Reaches(a: Engine, b: Engine) {
    exists actions :: Run(a, actions) == b
  }

  lemma ReachesNow(a: Engine)
    ensures Reaches(a, a)
  {
    assert Run(a, []) == a;
  }

  lemma ReachesOn(a: Engine, b: Engine, c: Engine)
    requires Reaches(a, b) && Reaches(b, c)
    ensures Reaches(a, c)
  {
    hide Step;
    var first :| Run(a, first) == b;
    var second :| Run(b, second) == c;
    RunJoins(a, first, second);
  }

  /** What other callers may do: everything but advance an open task or restart the process. */
  predicate Foreign(a: Action) {
    !(a.DoComplete? || a.DoDispatch? || a.DoAcknowledgeRemoval? || a.DoSettle? || a.DoAbort? ||
      a.DoProgress? || a.DoFinishMaintenance? || a.DoEndRecovery? || a.DoRestart?)
  }

  /** While a task is open others leave it, the jobs and the maintenance operation alone. */
  ghost predicate Undisturbed(e: Engine, next: Engine) {
    |e.tasks| == 1 ==>
      && next.tasks == e.tasks && next.journal.jobs == e.journal.jobs && next.slots == e.slots
      && next.journal.maintenance == e.journal.maintenance
  }

  lemma ForeignLeavesTask(e: Engine, a: Action)
    requires Inv(e) && Foreign(a)
    ensures Undisturbed(e, Step(e, a))
  {
    hide Tally, Room, Sound, TaskSound, Ordered, Appends, First, Trimmed, Recoverable;
  }

  /** Neither beside a task nor while reconciling is a request accepted. */
  lemma BusyRefuses(e: Engine, a: Action)
    requires Inv(e) && (|e.tasks| == 1 || e.reconciling)
    ensures !Careless(e, a)
  {
    hide Tally, Room, Sound, TaskSound, Ordered;
  }

  /** Beside an open task nobody takes the place of a late record. */
  lemma BesideTask(e: Engine, a: Action)
    requires Inv(e) && |e.tasks| == 1 && Foreign(a)
    ensures Heard(e.journal) ==> Heard(Step(e, a).journal)
    ensures Step(e, a).unheard == e.unheard
  {
    hide Tally, Room, Sound, TaskSound, Ordered, Step, Recoverable;
    if Heard(e.journal) { StepHears(e, a); }
  }

  /** What other callers do leaves a reconciliation under way, and opens no task. */
  lemma ForeignLeavesReconciling(e: Engine, a: Action)
    requires Inv(e) && e.reconciling && Foreign(a) && !a.DoRecordChange? && !a.DoEndReconcile?
    ensures Step(e, a).reconciling && Step(e, a).tasks == e.tasks
  {
    hide Tally, Room, Sound, TaskSound, Ordered, Appends, First, Trimmed, Recoverable;
  }

  /** Work that was funded is still funded, and was refused nothing. */
  ghost predicate Serves(e: Engine, next: Engine) {
    Funded(e) && !e.stranded ==> Funded(next) && !next.stranded
  }

  /** The same, and no late record was refused either. */
  ghost predicate ServesAll(e: Engine, next: Engine) {
    Serves(e, next) && next.unheard == e.unheard
  }

  lemma KeepsServes(e: Engine, next: Engine)
    requires Keeps(e, next)
    ensures Inv(next) && Serves(e, next)
  {
  }

  lemma OwnStep(e: Engine, a: Action)
    requires Inv(e) && !Careless(e, a)
    ensures Inv(Step(e, a)) && Serves(e, Step(e, a)) && Reaches(e, Step(e, a))
  {
    hide Step, Inv, Keeps, Careless, Funded;
    StepKeeps(e, a);
    KeepsServes(e, Step(e, a));
    RunTwo(e, a, a);
  }

  lemma CompleteCloses(e: Engine, id: nat, ok: bool, artifact: Option<nat>, remote: Remote)
    requires Inv(e) && e.tasks == [Backup(id)]
    ensures
      var next := Complete(e, 0, ok, artifact, remote);
      && next.tasks == (if ok then [Pruning(id)] else [])
      && Tally(Works, next.journal.jobs) == 0 && next.slots == e.slots
  {
    hide Tally, Completed, Contiguous, MaintenanceSound, Reserved, Ordered, OffHostSound, DistinctIds;
    CompletedKeeps(e.journal, IndexOf(e.journal.jobs, id), ok, artifact, remote);
  }

  lemma DispatchGoesOn(e: Engine, id: nat)
    requires Inv(e) && e.tasks == [Pruning(id)]
    ensures
      var next := Dispatched(e, 0);
      && next.journal == e.journal && |next.tasks| == 1 && next.slots == e.slots
      && (next.tasks[0] == Pruning(id) || (next.tasks[0].Removing? && next.tasks[0].id == id))
      && (next.tasks[0] == Pruning(id) <==> Plan(e.journal.jobs, id, e.journal.configuration.retention) == Enough)
      && Plan(e.journal.jobs, id, e.journal.configuration.retention) != Invalid
  {
    hide Tally, Plan, Contiguous, MaintenanceSound, Reserved, Ordered, OffHostSound, DistinctIds, Committed;
    PlannedKeeps(e.journal, id);
  }

  lemma RemovalGoesOn(e: Engine)
    requires Inv(e) && |e.tasks| == 1 && e.tasks[0].Removing?
    ensures
      var id, next := e.tasks[0].id, AcknowledgeRemoval(e, 0);
      && (next.tasks == [] || next.tasks == [Pruning(id)])
      && (next.tasks != [] ==> Tally(Others(id), next.journal.jobs) < Tally(Others(id), e.journal.jobs))
      && Tally(Works, next.journal.jobs) == 0 && next.slots == e.slots
  {
    hide Tally, Pruned, Audit, JobsSound, Contiguous, MaintenanceSound, Reserved, Ordered, OffHostSound, Committed,
      Room;
    RemovedKeeps(e.journal, e.tasks[0].id, e.tasks[0].candidate);
  }

  lemma SettleCloses(e: Engine)
    requires Inv(e) && |e.tasks| == 1 && (e.tasks[0].Pruning? || e.tasks[0].Removing?)
    ensures Settle(e, 0).tasks == []
    ensures Tally(Works, Settle(e, 0).journal.jobs) == 0 && Settle(e, 0).slots == e.slots
  {
    hide Tally, Held, JobsSound, Contiguous, MaintenanceSound, Reserved, Ordered, OffHostSound, Committed, Room;
    SettledKeeps(e.journal, e.tasks[0].id);
  }

  /** While older backups are removed for a finished one, no job is active. */
  lemma NoneWorks(e: Engine)
    requires Inv(e) && |e.tasks| == 1 && (e.tasks[0].Pruning? || e.tasks[0].Removing?)
    ensures Tally(Works, e.journal.jobs) == 0
  {
    hide Tally, Sound, OffHostSound, Ordered, Committed, Removable;
  }

  lemma RecoveryCloses(e: Engine, ok: bool)
    requires Inv(e)
    ensures BeginRecovery(e).journal == e.journal && (BeginRecovery(e) != e ==> BeginRecovery(e).tasks == [Recovering])
    ensures e.tasks == [Recovering] ==> EndRecovery(e, 0, ok).tasks == []
  {
    hide Tally, Room, Sound, Ordered, OffHostSound, Appends;
  }

  /** A recovery is thrown out at its end if and only if it was proved and no place is left. */
  lemma RecoveryThrows(e: Engine, ok: bool)
    requires Inv(e) && e.tasks == [Recovering]
    ensures
      var next := EndRecovery(e, 0, ok);
      if ok && Room(e.journal) == 0 then next.unheard && next.journal == e.journal && !Heard(e.journal)
      else next.unheard == e.unheard
  {
    hide Tally, Room, Sound, Ordered, OffHostSound, Appends, EndRecovery;
    if ok { RefusedIffFull(e); } else { RecoveryFails(e); }
  }

  lemma RecoveryFails(e: Engine)
    requires e.tasks == [Recovering]
    ensures EndRecovery(e, 0, false).unheard == e.unheard
  {
  }

  lemma MaintenanceCloses(e: Engine, phase: Phase, percent: nat, ok: bool)
    requires Inv(e)
    ensures
      var next := RunMaintenance(e);
      next.tasks == if |next.tasks| > |e.tasks| then [Maintaining] else e.tasks
    ensures e.tasks == [Maintaining] ==> Progress(e, 0, phase, percent).tasks == e.tasks
  {
    hide Tally, Room, JobsSound, Contiguous, MaintenanceSound, Reserved, Ordered, OffHostSound, Appends;
  }

  lemma FinishCloses(e: Engine, ok: bool)
    requires Inv(e) && e.tasks == [Maintaining]
    ensures FinishMaintenance(e, 0, ok).tasks == [] && !MaintenanceActive(FinishMaintenance(e, 0, ok).journal)
  {
    hide Tally, Ended, JobsSound, Contiguous, Reserved, Room, Recoverable, Ordered, OffHostSound;
    EndedKeeps(e.journal, ok);
  }

  lemma LaunchOpens(e: Engine, id: nat)
    requires Inv(e)
    ensures Launch(e, id).tasks == e.tasks ||
            (e.tasks == [] && |Launch(e, id).tasks| == 1 && Launch(e, id).tasks[0].Backup?)
  {
    hide Tally, Room, Sound, Ordered, OffHostSound, Begun, Admitted, First, NextRun, TaskSound;
  }

  /** Maintenance is queued, and nothing else is going on. */
  predicate Upkeep(e: Engine) {
    && !e.executing && !e.downloading && !OffHostBusy(e)
    && e.journal.maintenance.Some? && e.journal.maintenance.value.state == Queued
  }

  lemma UpkeepIsTaken(e: Engine)
    requires Inv(e)
    ensures
      var next := RunMaintenance(e);
      if Upkeep(e) then |next.tasks| == |e.tasks| + 1 else next == e
  {
    hide Inv, RunMaintenance;
    MaintenanceIsTakenIff(e);
  }

  /** No late recovery, reconciliation or maintenance comes first, and a job waits or a slot is due
      that the journal has room for. */
  ghost predicate TurnComes(e: Engine, id: nat) {
    && Still(e) && !Recoverable(e.journal) && Tally(Runs, e.journal.jobs) == 0
    && (Tally(Waits, e.journal.jobs) > 0 ||
        (IsDue(e.journal.configuration, e.clock) && Room(e.journal) >= e.jobEvents && NewId(e.journal.jobs, id)))
  }

  lemma TurnIsTaken(e: Engine, id: nat)
    requires Inv(e) && TurnComes(e, id)
    ensures BeginRecovery(e) == e && !Upkeep(e) && !e.blocked && !OffHostBusy(e)
    ensures |Launch(e, id).tasks| == |e.tasks| + 1
    ensures Tally(Waits, e.journal.jobs) == 0 ==> Launch(e, id).slots == e.slots + [e.journal.configuration.next.value]
  {
    hide Tally, Sound, OffHostSound, Ordered, Launch, TaskSound, Room, NewId, Recoverable, IsDue;
    if Tally(Waits, e.journal.jobs) > 0 {
      WaitingIsTaken(e, id);
    } else {
      WorksSplit(e.journal.jobs);
      DueIsTaken(e, id);
    }
  }

  /** What `tick` meets on the way to whose turn it is. */
  lemma TurnFirst(e: Engine, id: nat)
    requires Inv(e)
    ensures Upkeep(e) && !Recoverable(e.journal) ==> BeginRecovery(e) == e && !e.blocked && !OffHostBusy(e)
    ensures TurnComes(e, id) ==>
      && BeginRecovery(e) == e && !Upkeep(e) && !e.blocked && !OffHostBusy(e)
      && |Launch(e, id).tasks| == |e.tasks| + 1
      && (Tally(Waits, e.journal.jobs) == 0 ==>
            && e.journal.configuration.next.Some?
            && Launch(e, id).slots == e.slots + [e.journal.configuration.next.value])
  {
    hide Inv, Launch, Tally, Room, NewId, Recoverable;
    if TurnComes(e, id) { TurnIsTaken(e, id); }
  }

  lemma WaitingIsTaken(e: Engine, id: nat)
    requires Inv(e) && Still(e) && Tally(Waits, e.journal.jobs) > 0
    ensures |Launch(e, id).tasks| == |e.tasks| + 1
  {
    hide Tally, Sound, OffHostSound, Ordered, Launch, TaskSound, Room;
    NoFirst(Waits, e.journal.jobs);
    QueuedIsTaken(e, id, First(Waits, e.journal.jobs));
  }

  lemma DueIsTaken(e: Engine, id: nat)
    requires Inv(e) && Still(e) && Tally(Works, e.journal.jobs) == 0 && NewId(e.journal.jobs, id)
    requires IsDue(e.journal.configuration, e.clock) && Room(e.journal) >= e.jobEvents
    ensures |Launch(e, id).tasks| == |e.tasks| + 1
    ensures Launch(e, id).slots == e.slots + [e.journal.configuration.next.value]
  {
    hide Tally, Sound, OffHostSound, Ordered, Launch, TaskSound, Room, NewId, Milliseconds;
    NoneActiveIs(e.journal.jobs);
    DueIsAdmittedIff(e, id);
    AdmissionSchedules(e, id);
  }

  lemma NoneActiveIs(jobs: seq<Job>)
    ensures NoneActive(jobs) <==> Tally(Works, jobs) == 0
  {
    TallyNone(Works, jobs);
    assert NoneActive(jobs) <==> forall job :: job in jobs ==> !Is(Works, job);
  }

  class ManagedBackups {
    var engine: Engine

    ghost predicate Valid()
      reads this
    {
      Inv(engine)
    }

    constructor (clock: nat, jobEvents: nat)
      requires jobEvents >= JOB_EVENTS
      ensures Valid() && Funded(engine) && Heard(engine.journal) && !engine.stranded && !engine.unheard
    {
      engine := NewEngine(clock, jobEvents);
      new;
      NewEngineIsSound(clock, jobEvents);
    }

    /** One step of the open task. */
    method Do(a: Action)
      requires Valid() && !Careless(engine, a)
      modifies this
      ensures Valid() && engine == Step(old(engine), a) && Reaches(old(engine), engine) && Serves(old(engine), engine)
      ensures a.DoEndRecovery? || engine.unheard == old(engine).unheard
    {
      OwnStep(engine, a);
      hide Inv, Step, Funded;
      engine := Step(engine, a);
    }

    /** Whatever other callers do while this one waits. */
    method Wait()
      requires Valid() && |engine.tasks| == 1
      modifies this
      ensures Valid() && Reaches(old(engine), engine) && ServesAll(old(engine), engine)
      ensures Undisturbed(old(engine), engine) && (Heard(old(engine).journal) ==> Heard(engine.journal))
    {
      hide Inv, Step, Funded, Reaches, Heard;
      ReachesNow(engine);
      var steps: int := *;
      while steps > 0
        invariant Valid() && Reaches(old(engine), engine) && ServesAll(old(engine), engine)
        invariant Undisturbed(old(engine), engine) && (Heard(old(engine).journal) ==> Heard(engine.journal))
      {
        var a: Action := *;
        if Foreign(a) {
          ghost var before := engine;
          ForeignLeavesTask(engine, a);
          BusyRefuses(engine, a);
          BesideTask(engine, a);
          Do(a);
          ReachesOn(old(engine), before, engine);
        }
        steps := steps - 1;
      }
    }

    /** One turn of `prune`: plan, verify, plan again, remove, acknowledge.  It goes on only with
        one other retained job less. */
    method PruneOne(id: nat) returns (again: bool)
      requires Valid() && engine.tasks == [Pruning(id)]
      modifies this
      ensures Valid() && Reaches(old(engine), engine) && ServesAll(old(engine), engine)
      ensures engine.tasks == [] || (|engine.tasks| == 1 && (engine.tasks[0].Pruning? || engine.tasks[0].Removing?))
      ensures Tally(Works, engine.journal.jobs) == 0 && engine.slots == old(engine).slots
      ensures again ==>
        && engine.tasks == [Pruning(id)]
        && Tally(Others(id), engine.journal.jobs) < Tally(Others(id), old(engine).journal.jobs)
    {
      hide Inv, Step, Funded, Reaches, Dispatched, AcknowledgeRemoval, Tally, Plan;
      NoneWorks(engine);
      Wait();
      var planned := Plan(engine.journal.jobs, id, engine.journal.configuration.retention);
      DispatchGoesOn(engine, id);
      if planned == Enough { return false; }
      var verified: bool := *;
      if !verified { return false; }
      ghost var before := engine;
      Wait();
      ReachesOn(old(engine), before, engine);
      var current := Plan(engine.journal.jobs, id, engine.journal.configuration.retention);
      DispatchGoesOn(engine, id);
      if current == Enough || current.candidate.id != planned.candidate.id ||
         current.candidate.artifact != planned.candidate.artifact ||
         current.replacement.artifact != planned.replacement.artifact
      {
        return false;
      }
      before := engine;
      StepsAre(engine);
      Do(DoDispatch(0));
      ReachesOn(old(engine), before, engine);
      before := engine;
      Wait();
      ReachesOn(old(engine), before, engine);
      var removed: bool := *;
      if !removed { return false; }
      before := engine;
      RemovalGoesOn(engine);
      StepsAre(engine);
      Do(DoAcknowledgeRemoval(0));
      ReachesOn(old(engine), before, engine);
      again := engine.tasks != [];
    }

    /** `prune`: until the plan is empty or something fails. */
    method Prune(id: nat)
      requires Valid() && engine.tasks == [Pruning(id)]
      modifies this
      ensures Valid() && Reaches(old(engine), engine) && ServesAll(old(engine), engine)
      ensures engine.tasks == [] || (|engine.tasks| == 1 && (engine.tasks[0].Pruning? || engine.tasks[0].Removing?))
      ensures Tally(Works, engine.journal.jobs) == 0 && engine.slots == old(engine).slots
    {
      hide Inv, Funded, Reaches, Tally;
      ReachesNow(engine);
      while true
        invariant Valid() && Reaches(old(engine), engine) && ServesAll(old(engine), engine)
        invariant engine.tasks == [Pruning(id)] && engine.slots == old(engine).slots
        decreases Tally(Others(id), engine.journal.jobs)
      {
        ghost var before := engine;
        var again := PruneOne(id);
        ReachesOn(old(engine), before, engine);
        if !again { return; }
      }
    }

    /** A backup that was taken up: execute, complete, prune, settle.  The engine is idle again at
        the end, and a funded backup was refused nothing on the way. */
    method Perform(id: nat)
      requires Valid() && engine.tasks == [Backup(id)]
      modifies this
      ensures Valid() && Reaches(old(engine), engine) && ServesAll(old(engine), engine) && engine.tasks == []
      ensures Tally(Works, engine.journal.jobs) == 0 && engine.slots == old(engine).slots
    {
      hide Inv, Step, Funded, Reaches, Complete, Settle, Tally;
      Wait();
      ghost var before := engine;
      var ok: bool, artifact: Option<nat>, remote: Remote := *, *, *;
      CompleteCloses(engine, id, ok, artifact, remote);
      CompleteIs(engine, ok, artifact, remote);
      Do(DoComplete(0, ok, artifact, remote));
      ReachesOn(old(engine), before, engine);
      if !ok { return; }
      before := engine;
      Prune(id);
      ReachesOn(old(engine), before, engine);
      if engine.tasks == [] { return; }
      before := engine;
      SettleCloses(engine);
      StepsAre(engine);
      Do(DoSettle(0));
      ReachesOn(old(engine), before, engine);
    }

    /** `recoverRestartedRestore`: `taken` if this turn was taken by a late recovery, `thrown` if
        its record was refused.  It is refused only with the place taken before, and stays so. */
    method RecoverRestartedRestore() returns (taken: bool, thrown: bool)
      requires Valid()
      modifies this
      ensures Valid() && Reaches(old(engine), engine) && Serves(old(engine), engine)
      ensures engine.tasks == old(engine).tasks
      ensures !taken ==> engine == old(engine) && !thrown
      ensures taken ==> BeginRecovery(old(engine)) != old(engine)
      ensures !thrown ==> engine.unheard == old(engine).unheard
      ensures thrown ==> engine.unheard && !Heard(old(engine).journal) && !Heard(engine.journal)
    {
      hide Inv, Step, Funded, Reaches, BeginRecovery, EndRecovery, Heard;
      ReachesNow(engine);
      RecoveryCloses(engine, false);
      RecoveryIs(engine, false);
      if engine.executing || BeginRecovery(engine) == engine { return false, false; }
      NoTask(engine);
      Do(DoBeginRecovery);
      ghost var before := engine;
      Wait();
      ReachesOn(old(engine), before, engine);
      var ok: bool := *;
      RecoveryCloses(engine, ok);
      RecoveryIs(engine, ok);
      RecoveryThrows(engine, ok);
      before := engine;
      thrown := ok && Room(engine.journal) == 0;
      Do(DoEndRecovery(0, ok));
      ReachesOn(old(engine), before, engine);
      taken := true;
    }

    /** `runMaintenance`: true if this turn was taken by a maintenance operation. */
    method RunMaintenance() returns (ran: bool)
      requires Valid()
      modifies this
      ensures Valid() && Reaches(old(engine), engine) && ServesAll(old(engine), engine)
      ensures engine.tasks == old(engine).tasks
      ensures ran <==> old(Upkeep(engine))
      ensures if ran then !MaintenanceActive(engine.journal) else engine == old(engine)
    {
      hide Inv, Step, Funded, Reaches, BackupEngine.RunMaintenance, Progress, FinishMaintenance, Upkeep;
      MaintenanceCloses(engine, Early, 0, false);
      MaintenanceIs(engine, Early, 0, false);
      NoTask(engine);
      UpkeepIsTaken(engine);
      var open := |engine.tasks|;
      Do(DoRunMaintenance);
      if |engine.tasks| == open { return false; }
      var reports: int := *;
      while reports > 0
        invariant Valid() && Reaches(old(engine), engine) && ServesAll(old(engine), engine)
        invariant engine.tasks == [Maintaining]
      {
        ghost var before := engine;
        Wait();
        ReachesOn(old(engine), before, engine);
        before := engine;
        var phase: Phase, percent: int := *, *;
        if percent >= 0 {
          MaintenanceCloses(engine, phase, percent, false);
          MaintenanceIs(engine, phase, percent, false);
          Do(DoProgress(0, phase, percent));
          ReachesOn(old(engine), before, engine);
        }
        reports := reports - 1;
      }
      ghost var before := engine;
      var ok: bool := *;
      FinishCloses(engine, ok);
      MaintenanceIs(engine, Early, 0, ok);
      Do(DoFinishMaintenance(0, ok));
      ReachesOn(old(engine), before, engine);
      ran := true;
    }

    /** `reconcileOffHostAudit`, if an earlier attempt left the engine fenced: record the pending
        change and acknowledge its source, or fail and stay fenced. */
    method Reconcile()
      requires Valid()
      modifies this
      ensures Valid() && Reaches(old(engine), engine) && ServesAll(old(engine), engine)
      ensures engine.tasks == old(engine).tasks
      ensures !old(engine).blocked ==> engine == old(engine)
    {
      hide Inv, Step, Funded, Reaches, StartReconcile, RecordChange, EndReconcile;
      ReachesNow(engine);
      if !engine.blocked || engine.change != NoChange || engine.reconciling { return; }
      var ok: bool, took: bool := *, *;
      ReconcileIs(engine, ok, took);
      Do(DoStartReconcile);
      ghost var before := engine;
      Elsewhere();
      ReachesOn(old(engine), before, engine);
      before := engine;
      ReconcileIs(engine, ok, took);
      Do(DoRecordChange);
      ReachesOn(old(engine), before, engine);
      before := engine;
      Elsewhere();
      ReachesOn(old(engine), before, engine);
      before := engine;
      ReconcileIs(engine, ok, took);
      Do(DoEndReconcile(ok, took));
      ReachesOn(old(engine), before, engine);
    }

    /** Whatever other callers do while this one reconciles. */
    method Elsewhere()
      requires Valid() && engine.reconciling
      modifies this
      ensures Valid() && Reaches(old(engine), engine) && ServesAll(old(engine), engine)
      ensures engine.reconciling && engine.tasks == old(engine).tasks
    {
      hide Inv, Step, Funded, Reaches, Careless;
      ReachesNow(engine);
      var steps: int := *;
      while steps > 0
        invariant Valid() && Reaches(old(engine), engine) && ServesAll(old(engine), engine)
        invariant engine.reconciling && engine.tasks == old(engine).tasks
      {
        var a: Action := *;
        if Foreign(a) && !a.DoRecordChange? && !a.DoEndReconcile? {
          ghost var before := engine;
          ForeignLeavesReconciling(engine, a);
          BusyRefuses(engine, a);
          Do(a);
          ReachesOn(old(engine), before, engine);
        }
        steps := steps - 1;
      }
    }

    /** `tick`: a late recovery, else maintenance, else the next backup.  Whatever it opened is
        closed when it ends, and funded work was refused nothing on the way.  It throws only for a
        late record whose place was taken before the turn. */
    method Tick(id: nat) returns (thrown: bool)
      requires Valid()
      modifies this
      ensures Valid() && Reaches(old(engine), engine) && Serves(old(engine), engine)
      ensures engine.tasks == old(engine).tasks
      ensures !thrown ==> engine.unheard == old(engine).unheard
      ensures thrown ==> engine.unheard && !Heard(old(engine).journal) && !Heard(engine.journal)
      // Whose turn it is has been served: maintenance is over, and so is the backup.
      ensures old(Upkeep(engine) && !Recoverable(engine.journal)) ==> !MaintenanceActive(engine.journal)
      ensures old(TurnComes(engine, id)) ==> Tally(Works, engine.journal.jobs) == 0
      ensures old(TurnComes(engine, id) && Tally(Waits, engine.journal.jobs) == 0) ==>
        old(engine).journal.configuration.next.Some? &&
        engine.slots == old(engine).slots + [old(engine).journal.configuration.next.value]
    {
      hide Inv, Step, Funded, Reaches, Launch, Heard, TurnComes, Upkeep, Recoverable, Tally, BeginRecovery, OffHostBusy;
      TurnFirst(engine, id);
      var taken;
      taken, thrown := RecoverRestartedRestore();
      if taken { return; }
      ghost var begun := engine;
      Reconcile();
      ReachesOn(old(engine), begun, engine);
      if OffHostBusy(engine) { return; }
      begun := engine;
      taken := RunMaintenance();
      ReachesOn(old(engine), begun, engine);
      if taken { return; }
      ghost var before := engine;
      var open := |engine.tasks|;
      LaunchOpens(engine, id);
      LaunchIs(engine, id);
      Do(DoLaunch(id));
      ReachesOn(old(engine), before, engine);
      if |engine.tasks| == open { return; }
      before := engine;
      Perform(engine.tasks[0].id);
      ReachesOn(old(engine), before, engine);
    }
  }

  lemma StepsAre(e: Engine)
    ensures Step(e, DoDispatch(0)) == Dispatched(e, 0)
    ensures Step(e, DoAcknowledgeRemoval(0)) == AcknowledgeRemoval(e, 0)
    ensures Step(e, DoSettle(0)) == Settle(e, 0)
  {
    hide Dispatched, AcknowledgeRemoval, Settle, Appends;
  }

  lemma CompleteIs(e: Engine, ok: bool, artifact: Option<nat>, remote: Remote)
    ensures Step(e, DoComplete(0, ok, artifact, remote)) == Complete(e, 0, ok, artifact, remote)
  {
    hide Complete, Appends;
  }

  lemma RecoveryIs(e: Engine, ok: bool)
    ensures Step(e, DoBeginRecovery) == BeginRecovery(e) && Step(e, DoEndRecovery(0, ok)) == EndRecovery(e, 0, ok)
  {
    hide BeginRecovery, EndRecovery, Appends;
  }

  lemma MaintenanceIs(e: Engine, phase: Phase, percent: nat, ok: bool)
    ensures Step(e, DoRunMaintenance) == RunMaintenance(e)
    ensures Step(e, DoProgress(0, phase, percent)) == Progress(e, 0, phase, percent)
    ensures Step(e, DoFinishMaintenance(0, ok)) == FinishMaintenance(e, 0, ok)
  {
    hide RunMaintenance, Progress, FinishMaintenance, Appends;
  }

  lemma LaunchIs(e: Engine, id: nat)
    ensures Step(e, DoLaunch(id)) == Launch(e, id)
  {
    hide Launch, Appends;
  }

  lemma NoTask(e: Engine)
    requires Inv(e)
    ensures !e.executing ==> e.tasks == []
    ensures RunMaintenance(e).tasks != e.tasks ==> e.tasks == []
  {
    hide Tally, Room, Sound, Ordered, OffHostSound, TaskSound, Audit;
  }

  /** Reconciling touches neither jobs nor tasks. */
  lemma ReconcileIs(e: Engine, ok: bool, took: bool)
    ensures Step(e, DoStartReconcile) == StartReconcile(e) && Step(e, DoRecordChange) == RecordChange(e)
    ensures Step(e, DoEndReconcile(ok, took)) == EndReconcile(e, ok, took)
    ensures StartReconcile(e).tasks == RecordChange(e).tasks == EndReconcile(e, ok, took).tasks == e.tasks
    ensures RecordChange(e).reconciling == e.reconciling
    ensures !e.reconciling && e.blocked && e.change == NoChange ==> StartReconcile(e).reconciling
  {
    hide StartReconcile, RecordChange, EndReconcile, Appends;
    ReconcileLeaves(e, ok, took);
  }

  lemma ReconcileLeaves(e: Engine, ok: bool, took: bool)
    ensures StartReconcile(e).tasks == RecordChange(e).tasks == EndReconcile(e, ok, took).tasks == e.tasks
    ensures RecordChange(e).reconciling == e.reconciling
    ensures !e.reconciling && e.blocked && e.change == NoChange ==> StartReconcile(e).reconciling
  {
    hide Tally, Room, Appends;
  }
}
