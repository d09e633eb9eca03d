/** The reservation of 53 events does not cover the one late event of a recovered restore: a job
    requested by hand while such a restore is open and all 50 places are taken can lose the record
    of its last removal.  A scheduled job cannot: it is admitted and started in one step. */
module BackupExposure {
  import opened Durability
  import opened BackupJournal
  import opened BackupRetention
  import opened BackupEngine
  import opened BackupSafety
  import opened BackupRuns

  /** The replacement `id` is being pruned down to one, and the room is one event short. */
  ghost predicate Short(e: Engine, id: nat) {
    && Inv(e) && !e.stranded && e.tasks == [Pruning(id)] && e.journal.configuration.retention == 1
    && Pin(e.journal.jobs, id) == None
    && Room(e.journal) + 1 == Tally(Others(id), e.journal.jobs)
  }

  lemma ShortDispatch(e: Engine, id: nat)
    requires Short(e, id)
    ensures
      var next := Dispatched(e, 0);
      && next == e.(tasks := next.tasks) && |next.tasks| == 1 && next.tasks[0].Removing? && next.tasks[0].id == id
      && Inv(next) && Pin(e.journal.jobs, id) != Some(next.tasks[0].candidate)
  {
    hide Tally, Room, Contiguous, MaintenanceSound, Reserved, Ordered, OffHostSound;
    var j := e.journal;
    DispatchKeeps(e, 0);
    RoomIsNat(j);
    PoolIsOthers(j.jobs, id);
    PlanStops(j.jobs, id, 1);
    PlanIsSafe(j.jobs, id, 1);
  }

  /** A removal for the replacement `id` has been dispatched, and its record is refused for want of
      room: the journal goes on listing the removed backup as retained. */
  ghost predicate Lost(e: Engine, id: nat) {
    && !e.stranded && |e.tasks| == 1 && e.tasks[0].Removing? && e.tasks[0].id == id
    && Removable(e.journal.jobs, id, e.tasks[0].candidate) && Room(e.journal) == 0
    && AcknowledgeRemoval(e, 0) == e.(executing := false, tasks := [], stranded := true)
  }

  /** No backup is requested by hand. */
  ghost predicate NoStarts(actions: seq<Action>) {
    forall i :: 0 <= i < |actions| ==> !actions[i].DoStart?
  }

  lemma {:induction false} NoStartsIsCareful(e: Engine, actions: seq<Action>)
    requires NoStarts(actions)
    ensures Careful(e, actions)
    decreases actions
  {
    hide Step;
    if actions != [] { NoStartsIsCareful(Step(e, actions[0]), actions[1..]); }
  }

  /** One removal, or the one that cannot be recorded. */
  lemma ShortStep(e: Engine, id: nat)
    requires Short(e, id)
    ensures
      var next := AcknowledgeRemoval(Dispatched(e, 0), 0);
      if Room(e.journal) == 0 then Lost(Dispatched(e, 0), id)
      else Short(next, id) && Room(next.journal) == Room(e.journal) - 1
  {
    hide Tally, Pruned, Contiguous, JobsSound, MaintenanceSound, Reserved, Ordered, OffHostSound, Room, Plan,
      Dispatched;
    ShortDispatch(e, id);
    var mid := Dispatched(e, 0);
    RemovalKeeps(mid, 0);
    RemovedKeeps(e.journal, id, mid.tasks[0].candidate);
    if Room(e.journal) != 0 {
      RoomIsNat(e.journal);
      RemovedPin(e.journal, id, mid.tasks[0].candidate);
    }
  }

  lemma RemovedPin(j: Journal, id: nat, candidate: nat)
    requires Sound(j) && TaskSound(j, Removing(id, candidate)) && Pin(j.jobs, id) != Some(candidate)
    ensures Pin(Pruned(j.jobs, candidate, id), id) == Pin(j.jobs, id)
  {
    hide Tally, Pruned, LastRemote;
    PruneStep(j.jobs, id, IndexOf(j.jobs, candidate));
    PrunePin(j.jobs, id, IndexOf(j.jobs, candidate));
  }

  lemma {:induction false} ShortLoses(e: Engine, id: nat) returns (actions: seq<Action>)
    requires Short(e, id)
    ensures NoStarts(actions) && Lost(Run(e, actions), id)
    decreases Room(e.journal)
  {
    hide Short, Lost, Inv, Room, Dispatched, AcknowledgeRemoval;
    ShortStep(e, id);
    ShortRoom(e, id);
    RunTwo(e, DoDispatch(0), DoAcknowledgeRemoval(0));
    if Room(e.journal) == 0 {
      actions := [DoDispatch(0)];
    } else {
      actions := [DoDispatch(0), DoAcknowledgeRemoval(0)];
      var more := ShortLoses(AcknowledgeRemoval(Dispatched(e, 0), 0), id);
      RunJoins(e, actions, more);
      actions := actions + more;
    }
  }

  lemma ShortRoom(e: Engine, id: nat)
    requires Short(e, id)
    ensures Room(e.journal) >= 0
  {
    hide Room;
    RoomIsNat(e.journal);
  }

  // ---------- From the admission to the shortage ----------

  /** The job `id` waits, all places are taken, and so much room is left. */
  ghost predicate Waiting(e: Engine, id: nat, room: int) {
    && Inv(e) && !e.stranded && e.jobEvents == JOB_EVENTS
    && e.tasks == [] && !OffHostBusy(e) && !e.downloading && !MaintenanceActive(e.journal)
    && Tally(Waits, e.journal.jobs) == 1 && Tally(Runs, e.journal.jobs) == 0
    && Tally(Retains, e.journal.jobs) == RETAINED_LIMIT
    && First(Waits, e.journal.jobs) < |e.journal.jobs| && e.journal.jobs[First(Waits, e.journal.jobs)].id == id
    && Room(e.journal) == room
  }

  lemma StartWaits(e: Engine, id: nat)
    requires Inv(e) && !e.stranded && Exposed(e) && Admitted(e, id, None).Some?
    ensures
      var next := Start(e, id);
      && Waiting(next, id, Room(next.journal)) && Recoverable(next.journal)
      && Last(next.journal) == Last(e.journal) + 1 && next.journal.events != []
      && next.journal.configuration == e.journal.configuration && Room(next.journal) >= JOB_EVENTS - 1
  {
    hide Tally, Room, JobsSound, MaintenanceSound, Reserved, Ordered, OffHostSound;
    AdmittedKeeps(e, id, None);
    StartKeeps(e, id);
  }

  /** The consumer catches up. */
  lemma AcknowledgeWaits(e: Engine, id: nat, room: int)
    requires Waiting(e, id, room) && Recoverable(e.journal) && e.journal.events != []
    requires !Fixed(e)
    ensures
      var next := Acknowledge(e, Last(e.journal));
      Waiting(next, id, Room(next.journal)) && Recoverable(next.journal) && Room(next.journal) >= JOB_EVENTS
  {
    hide Tally, First, JobsSound, MaintenanceSound, Reserved, Ordered, OffHostSound, After;
    var j := e.journal;
    AcknowledgeKeeps(e, Last(j));
    assert j.events[|j.events| - 1].sequence == Last(j);
    AfterIs(j.events, j.acknowledged + 1, Last(j));
  }

  /** A configuration update takes one place, down to what is reserved. */
  lemma UpdateWaits(e: Engine, id: nat, room: int)
    requires Waiting(e, id, room) && Recoverable(e.journal) && room >= JOB_EVENTS
    ensures
      var c := e.journal.configuration;
      var next := Update(e, c.revision, c.enabled, 1, 1);
      && Waiting(next, id, room - 1) && Recoverable(next.journal) && next.journal.configuration.retention == 1
  {
    hide Tally, First, Room, JobsSound, Contiguous, MaintenanceSound, Reserved, Exclusive, OffHostSound, Ordered,
      Keeps, Update;
    var c := e.journal.configuration;
    WorksSplit(e.journal.jobs);
    UpdateKeeps(e, c.revision, c.enabled, 1, 1);
    KeepsInv(e, Update(e, c.revision, c.enabled, 1, 1));
    UpdateTakesOne(e, 1, 1);
  }

  lemma UpdateTakesOne(e: Engine, hours: nat, retention: nat)
    requires Contiguous(e.journal) && !OffHostBusy(e) && 1 <= hours <= 8760 && 1 <= retention <= 50
    requires Room(e.journal) >= e.jobEvents >= 5
    ensures
      var c := e.journal.configuration;
      var next := Update(e, c.revision, c.enabled, hours, retention);
      var d := next.journal.configuration;
      && next == e.(journal := e.journal.(configuration := d, events := next.journal.events))
      && Room(next.journal) == Room(e.journal) - 1 && d.retention == retention
  {
    hide Tally, Contiguous, Room, Audit, MaintenanceActive, OffHostBusy, Milliseconds, AnyActive;
    var c := e.journal.configuration;
    var next := if !c.enabled then None else if hours != c.hours then Some(e.clock + Milliseconds(hours)) else c.next;
    var d := Configuration(c.revision + 1, c.enabled, hours, retention, next);
    SameRoom(e.journal, d);
    var draft := e.journal.(configuration := d);
    AuditKeeps(draft, ConfigurationUpdated, None);
    assert Update(e, c.revision, c.enabled, hours, retention) ==
           e.(journal := Audit(draft, ConfigurationUpdated, None).value);
  }

  lemma SameRoom(j: Journal, c: Configuration)
    requires Contiguous(j)
    ensures Contiguous(j.(configuration := c)) && Room(j.(configuration := c)) == Room(j)
  {
  }

  lemma {:induction false} UpdatesWait(e: Engine, id: nat, room: int) returns (actions: seq<Action>, last: Engine)
    requires Waiting(e, id, room) && Recoverable(e.journal) && room >= JOB_EVENTS
    ensures last == Run(e, actions) && Waiting(last, id, JOB_EVENTS - 1) && Recoverable(last.journal)
    ensures last.journal.configuration.retention == 1 && NoStarts(actions)
    decreases room
  {
    hide Waiting, Recoverable, Update;
    var c := e.journal.configuration;
    var a := DoUpdate(c.revision, c.enabled, 1, 1);
    UpdateWaits(e, id, room);
    RunTwo(e, a, a);
    last := Step(e, a);
    actions := [a];
    if room > JOB_EVENTS {
      var more, end := UpdatesWait(last, id, room - 1);
      RunJoins(e, actions, more);
      actions, last := actions + more, end;
    }
  }

  /** The restore is found to have succeeded after all. */
  lemma RecoveryWaits(e: Engine, id: nat)
    requires Waiting(e, id, JOB_EVENTS - 1) && Recoverable(e.journal)
    ensures
      var next := EndRecovery(BeginRecovery(e), 0, true);
      Waiting(next, id, JOB_EVENTS - 2) && next.journal.configuration == e.journal.configuration
  {
    hide Tally, First, Room, JobsSound, Contiguous, MaintenanceSound, Reserved, Ordered, OffHostSound;
    BeginRecoveryKeeps(e);
    var mid := BeginRecovery(e);
    EndRecoveryKeeps(mid, 0, true);
    RecoveredKeeps(e.journal, e.journal.maintenance.value.(state := Succeeded, phase := Finished, percent := 100));
  }

  lemma CompletionIsShort(e: Engine, id: nat)
    requires Waiting(e, id, JOB_EVENTS - 2) && e.journal.configuration.retention == 1
    ensures Short(Complete(Launch(e, id), 0, true, Some(id), Unreplicated), id)
  {
    hide Tally, First, Room, JobsSound, Contiguous, MaintenanceSound, Reserved, Ordered, OffHostSound, Begun,
      Completed, Committed;
    var j, k := e.journal, First(Waits, e.journal.jobs);
    NoFirst(Runs, j.jobs);
    FirstIs(j.jobs);
    LaunchKeeps(e, id);
    BegunKeeps(j, k);
    var mid := Launch(e, id);
    assert mid == Begin(e, j, k, e.slots);
    assert mid.journal == Begun(j, k).value && mid.tasks == [Backup(id)];
    CompleteKeeps(mid, 0, true, Some(id), Unreplicated);
    var m := IndexOf(mid.journal.jobs, id);
    CompletedKeeps(mid.journal, m, true, Some(id), Unreplicated);
    CompletedFull(mid.journal, m, id);
  }

  lemma FirstIs(jobs: seq<Job>)
    ensures First(Waits, jobs) < |jobs| ==> jobs[First(Waits, jobs)].state == Queued
  {
  }

  /** With all places taken the new success is not retained, so every retained job is another. */
  lemma CompletedFull(j: Journal, k: nat, id: nat)
    requires Sound(j) && k < |j.jobs| && j.jobs[k].state == Running && j.jobs[k].id == id
    requires Tally(Retains, j.jobs) == RETAINED_LIMIT
    ensures
      var r := Completed(j, k, true, Some(id), Unreplicated);
      r.Some? && Tally(Others(id), r.value.jobs) == RETAINED_LIMIT && Pin(r.value.jobs, id) == None
  {
    hide Tally, LastRemote;
    CompletedKeeps(j, k, true, Some(id), Unreplicated);
    var r := Completed(j, k, true, Some(id), Unreplicated).value;
    var job := j.jobs[k].(artifact := Some(id), remote := Unreplicated, state := Succeeded, retained := false);
    assert r.jobs == j.jobs[k := job];
    Replaced(j.jobs, k, job);
    RetainedSplit(r.jobs, id);
  }

  /** A request that is exposed and accepted can be brought to the least room with one backup to keep. */
  lemma ExposedWaits(e: Engine, id: nat) returns (actions: seq<Action>, last: Engine)
    requires Inv(e) && !e.stranded && Exposed(e) && Admitted(e, id, None).Some?
    ensures last == Run(Start(e, id), actions) && NoStarts(actions)
    ensures Waiting(last, id, JOB_EVENTS - 1) && Recoverable(last.journal)
    ensures last.journal.configuration.retention == 1
  {
    hide Inv, Admitted, Start, Waiting, Recoverable, Room, Last, Acknowledge, Tally;
    var e1 := Start(e, id);
    StartWaits(e, id);
    if Fixed(e1) {
      FixedRoom(e1);
      actions, last := [], e1;
    } else {
      AcknowledgeWaits(e1, id, Room(e1.journal));
      var first := DoAcknowledge(Last(e1.journal));
      var e2 := Step(e1, first);
      RunTwo(e1, first, first);
      var updates, e3 := UpdatesWait(e2, id, Room(e2.journal));
      RunJoins(e1, [first], updates);
      actions, last := [first] + updates, e3;
    }
  }

  lemma FixedRoom(e: Engine)
    requires Fixed(e) && e.jobEvents <= JOB_EVENTS <= Room(e.journal) + 1
    ensures Room(e.journal) == JOB_EVENTS - 1
  {
  }

  /** Every accepted request that is exposed has a continuation in which a removal of its
      retention takes place and cannot be recorded. */
  lemma ExposedJobMayStrand(e: Engine, id: nat) returns (actions: seq<Action>)
    requires Inv(e) && !e.stranded && Exposed(e) && Admitted(e, id, None).Some?
    ensures NoStarts(actions) && Lost(Run(Start(e, id), actions), id)
  {
    hide Inv, Exposed, Admitted, Start, Waiting, Short, Lost, Recoverable, BeginRecovery, EndRecovery, Launch, Complete;
    var e1 := Start(e, id);
    var waiting, e3 := ExposedWaits(e, id);
    RecoveryWaits(e3, id);
    var e4 := Step(Step(e3, DoBeginRecovery), DoEndRecovery(0, true));
    CompletionIsShort(e4, id);
    var launch, complete := DoLaunch(id), DoComplete(0, true, Some(id), Unreplicated);
    var e5 := Step(Step(e4, launch), complete);
    var removals := ShortLoses(e5, id);
    RunTwo(e3, DoBeginRecovery, DoEndRecovery(0, true));
    RunTwo(e4, launch, complete);
    RunJoins(e1, waiting, [DoBeginRecovery, DoEndRecovery(0, true)]);
    RunJoins(e1, waiting + [DoBeginRecovery, DoEndRecovery(0, true)], [launch, complete]);
    RunJoins(e1, waiting + [DoBeginRecovery, DoEndRecovery(0, true)] + [launch, complete], removals);
    actions := waiting + [DoBeginRecovery, DoEndRecovery(0, true)] + [launch, complete] + removals;
  }

  /** The exact condition, for every accepted request and whatever follows it: work may be
      stranded if and only if the request met an exposed journal. */
  lemma StrandsIffExposed(e: Engine, id: nat)
    requires Inv(e) && Funded(e) && !e.stranded && Admitted(e, id, None).Some?
    ensures Exposed(e) <==>
              exists actions :: Careful(Start(e, id), actions) && Run(Start(e, id), actions).stranded
  {
    hide Inv, Exposed, Admitted, Start, Funded, Careful;
    var next := Start(e, id);
    StartKeeps(e, id);
    if Exposed(e) {
      var actions := ExposedJobMayStrand(e, id);
      LostStrands(next, actions, id);
    } else {
      forall actions | Careful(next, actions) ensures !Run(next, actions).stranded {
        AcceptedWorkCommits(next, actions);
      }
    }
  }

  lemma LostStrands(e: Engine, actions: seq<Action>, id: nat)
    requires NoStarts(actions) && Lost(Run(e, actions), id)
    ensures exists more :: Careful(e, more) && Run(e, more).stranded
  {
    hide AcknowledgeRemoval, Careful;
    var last := DoAcknowledgeRemoval(0);
    RemovalIs(Run(e, actions));
    RunTwo(Run(e, actions), last, last);
    RunJoins(e, actions, [last]);
    NoStartsIsCareful(e, actions + [last]);
  }

  lemma RemovalIs(e: Engine)
    ensures Step(e, DoAcknowledgeRemoval(0)) == AcknowledgeRemoval(e, 0)
  {
    hide AcknowledgeRemoval, Appends;
  }

  // ---------- An exposed admission is reachable ----------

  ghost predicate Idle(e: Engine) {
    Inv(e) && e.jobEvents == JOB_EVENTS && e.tasks == [] && !OffHostBusy(e) && !e.downloading && !e.stranded
  }

  /** Jobs 0 to n - 1 have succeeded and are retained, and the consumer is up to date. */
  ghost predicate Stocked(e: Engine, n: nat) {
    && Idle(e) && e.journal.maintenance == None
    && |e.journal.jobs| == n && (forall i :: 0 <= i < n ==> Stock(e.journal.jobs[i], i))
    && e.journal.events == [] && Last(e.journal) <= 3 * n
  }

  predicate Stock(job: Job, i: nat) {
    job.id == i && job.state == Succeeded && job.retained
  }

  lemma {:induction false} StockTally(jobs: seq<Job>)
    requires forall job :: job in jobs ==> job.state == Succeeded && job.retained
    ensures Tally(Retains, jobs) == |jobs| && Tally(Works, jobs) == 0
  {
    if jobs != [] {
      assert forall job :: job in jobs[1..] ==> job in jobs;
      StockTally(jobs[1..]);
    }
  }

  lemma StockedTally(e: Engine, n: nat)
    requires Stocked(e, n)
    ensures Tally(Retains, e.journal.jobs) == n && Tally(Works, e.journal.jobs) == 0
    ensures IndexOf(e.journal.jobs, n) == n && DistinctIds(e.journal.jobs)
    ensures Room(e.journal) == CAPACITY || Last(e.journal) + CAPACITY > SAFE_INTEGER
  {
    hide Inv, Tally;
    StockTally(e.journal.jobs);
  }

  function NewJob(id: nat): Job {
    Job(id, None, Queued, None, Unreplicated, false)
  }

  lemma StockStart(e: Engine, n: nat)
    requires Stocked(e, n) && n < RETAINED_LIMIT
    ensures
      var next := Start(e, n);
      && Idle(next) && next.journal.maintenance == None && next.journal.jobs == e.journal.jobs + [NewJob(n)]
      && First(Waits, next.journal.jobs) == n && Tally(Waits, next.journal.jobs) == 1
      && Tally(Runs, next.journal.jobs) == 0
      && Last(next.journal) == Last(e.journal) + 1 && next.journal.events != []
  {
    hide Tally, Contiguous, JobsSound, MaintenanceSound, Reserved, Ordered, OffHostSound;
    StockedTally(e, n);
    StartKeeps(e, n);
    assert Admitted(e, n, None).Some?;
    AdmittedKeeps(e, n, None);
  }

  lemma StockLaunch(e: Engine, base: seq<Job>)
    requires Idle(e) && e.journal.maintenance == None && e.journal.jobs == base + [NewJob(|base|)]
    requires First(Waits, e.journal.jobs) == |base| && Tally(Waits, e.journal.jobs) == 1
    requires Tally(Runs, e.journal.jobs) == 0
    ensures
      var next := Launch(e, 0);
      && Inv(next) && next == e.(journal := next.journal, executing := true, tasks := [Backup(|base|)])
      && next.journal.maintenance == None && next.journal.jobs == base + [NewJob(|base|).(state := Running)]
      && Last(next.journal) == Last(e.journal) + 1 && next.journal.events != []
  {
    hide Tally, First, Contiguous, JobsSound, MaintenanceSound, Ordered, OffHostSound;
    NoFirst(Runs, e.journal.jobs);
    LaunchKeeps(e, 0);
    BegunKeeps(e.journal, |base|);
    assert e.journal.jobs[|base|] == NewJob(|base|);
    assert e.journal.jobs[|base| := NewJob(|base|).(state := Running)] == base + [NewJob(|base|).(state := Running)];
  }

  lemma StockCompleted(j: Journal, base: seq<Job>)
    requires Sound(j) && j.jobs == base + [NewJob(|base|).(state := Running)] && DistinctIds(base)
    requires Tally(Retains, base) == |base| < RETAINED_LIMIT && IndexOf(base, |base|) == |base|
    ensures IndexOf(j.jobs, |base|) == |base|
    ensures
      var r := Completed(j, |base|, true, Some(|base|), Unreplicated);
      && r.Some? && r.value.jobs == base + [Job(|base|, None, Succeeded, Some(|base|), Unreplicated, true)]
      && Last(r.value) == Last(j) + 1 && r.value.events != []
  {
    hide Tally, Sound, DistinctIds, IndexOf, Committed, Appends, Room, Last, Completed;
    var n, running := |base|, NewJob(|base|).(state := Running);
    IndexOfAppended(base, running, n);
    CompletedKeeps(j, n, true, Some(n), Unreplicated);
    Appended(base, running);
    assert !Is(Retains, running);
    var done := Job(n, None, Succeeded, Some(n), Unreplicated, true);
    assert j.jobs[n] == running;
    assert j.jobs[n := done] == base + [done];
    CompletedShape(j, n);
  }

  lemma CompletedShape(j: Journal, k: nat)
    requires k < |j.jobs| <= JOBS_LIMIT && Completed(j, k, true, Some(k), Unreplicated).Some?
    ensures
      var r := Completed(j, k, true, Some(k), Unreplicated).value;
      && r.jobs == j.jobs[k := j.jobs[k].(artifact := Some(k), remote := Unreplicated, state := Succeeded,
                                          retained := Tally(Retains, j.jobs) < RETAINED_LIMIT)]
      && Last(r) == Last(j) + 1 && r.events != []
  {
    hide Tally, Room, Appends, LatestSuccess, Dropped;
  }

  lemma StockComplete(e: Engine, base: seq<Job>)
    requires Inv(e) && e.tasks == [Backup(|base|)] && e.journal.maintenance == None && !OffHostBusy(e) && !e.stranded
    requires e.journal.jobs == base + [NewJob(|base|).(state := Running)] && DistinctIds(base)
    requires Tally(Retains, base) == |base| < RETAINED_LIMIT && IndexOf(base, |base|) == |base|
    ensures
      var next := Complete(e, 0, true, Some(|base|), Unreplicated);
      && Inv(next) && next == e.(journal := next.journal, tasks := [Pruning(|base|)])
      && next.journal.maintenance == None
      && next.journal.jobs == base + [Job(|base|, None, Succeeded, Some(|base|), Unreplicated, true)]
      && Last(next.journal) == Last(e.journal) + 1 && next.journal.events != []
  {
    hide Tally, Sound, Exclusive, Ordered, OffHostSound, Completed, Last, Funded, IndexOf, DistinctIds, Appends,
      Committed;
    CompleteKeeps(e, 0, true, Some(|base|), Unreplicated);
    StockCompleted(e.journal, base);
    assert e.journal.jobs[|base|].state == Running;
    CompletedKeeps(e.journal, |base|, true, Some(|base|), Unreplicated);
  }

  lemma StockSettle(e: Engine, base: seq<Job>, done: Job)
    requires Inv(e) && e.tasks == [Pruning(|base|)] && e.journal.jobs == base + [done] && !OffHostBusy(e) && !e.stranded
    requires done.id == |base| && done.state == Succeeded && done.retained
    requires Tally(Retains, base) == |base| < RETAINED_LIMIT
    requires IndexOf(base, |base|) == |base| && DistinctIds(base)
    requires e.jobEvents == JOB_EVENTS
    ensures
      var next := Settle(e, 0);
      Idle(next) && next.journal == e.journal
  {
    hide Tally, Contiguous, MaintenanceSound, Ordered, OffHostSound, Reserved, JobsSound, Held, Committed;
    SettleKeeps(e, 0);
    CloseKeeps(e, 0);
    StockHeld(base, done);
  }

  lemma StockHeld(base: seq<Job>, done: Job)
    requires done.id == |base| && done.retained && Tally(Retains, base) == |base| < RETAINED_LIMIT
    requires IndexOf(base, |base|) == |base| && DistinctIds(base)
    ensures Held(base + [done], |base|) == base + [done] && IndexOf(base + [done], |base|) == |base|
  {
    hide Tally;
    var n, jobs := |base|, base + [done];
    IndexOfAppended(base, done, n);
    Appended(base, done);
    RetainedSplit(base, n);
    assert !Is(Others(n), done);
    assert jobs[n := done] == jobs;
  }

  lemma IdleAcknowledges(e: Engine)
    requires Idle(e) && e.journal.events != []
    ensures
      var next := Acknowledge(e, Last(e.journal));
      && Idle(next) && next.journal == e.journal.(events := [], acknowledged := next.journal.acknowledged)
      && Last(next.journal) == Last(e.journal)
  {
    hide Tally, JobsSound, MaintenanceSound, Reserved, Ordered, OffHostSound, After;
    var j := e.journal;
    AcknowledgeKeeps(e, Last(j));
    assert j.events[|j.events| - 1].sequence == Last(j);
    AfterIs(j.events, j.acknowledged + 1, Last(j));
  }

  /** One more backup succeeds and is retained. */
  lemma StockOne(e: Engine, n: nat) returns (actions: seq<Action>)
    requires Stocked(e, n) && n < RETAINED_LIMIT
    ensures Stocked(Run(e, actions), n + 1)
  {
    hide Start, Launch, Complete, Settle, Acknowledge, Inv, Tally, First, IndexOf;
    var base := e.journal.jobs;
    var done := Job(n, None, Succeeded, Some(n), Unreplicated, true);
    StockedTally(e, n);
    StockStart(e, n);
    var e1 := Start(e, n);
    StockLaunch(e1, base);
    var e2 := Launch(e1, 0);
    StockComplete(e2, base);
    var e3 := Complete(e2, 0, true, Some(n), Unreplicated);
    StockSettle(e3, base, done);
    var e4 := Settle(e3, 0);
    IdleAcknowledges(e4);
    var last := DoAcknowledge(Last(e4.journal));
    RunTwo(e, DoStart(n), DoLaunch(0));
    RunTwo(e2, DoComplete(0, true, Some(n), Unreplicated), DoSettle(0));
    RunTwo(e4, last, last);
    RunJoins(e, [DoStart(n), DoLaunch(0)], [DoComplete(0, true, Some(n), Unreplicated), DoSettle(0)]);
    actions := [DoStart(n), DoLaunch(0)] + [DoComplete(0, true, Some(n), Unreplicated), DoSettle(0)];
    RunJoins(e, actions, [last]);
    actions := actions + [last];
  }

  lemma {:induction false} StockAll(n: nat) returns (actions: seq<Action>)
    requires n <= RETAINED_LIMIT
    ensures Stocked(Run(NewEngine(0, JOB_EVENTS), actions), n)
  {
    hide Stocked, Step, NewEngine, Run;
    if n == 0 {
      actions := [DoStartReconcile, DoEndReconcile(true, false)];
      EmptyStock();
    } else {
      actions := StockAll(n - 1);
      var e := Run(NewEngine(0, JOB_EVENTS), actions);
      var more := StockOne(e, n - 1);
      RunJoins(NewEngine(0, JOB_EVENTS), actions, more);
      actions := actions + more;
    }
  }

  lemma EmptyStock()
    ensures Stocked(Run(NewEngine(0, JOB_EVENTS), [DoStartReconcile, DoEndReconcile(true, false)]), 0)
  {
    hide Run, Inv, Step, Keeps;
    var e := NewEngine(0, JOB_EVENTS);
    NewEngineIsSound(0, JOB_EVENTS);
    RunTwo(e, DoStartReconcile, DoEndReconcile(true, false));
    ReconcileSteps(e);
    ReconcileSteps(StartReconcile(e));
    StepKeeps(e, DoStartReconcile);
    StepKeeps(StartReconcile(e), DoEndReconcile(true, false));
  }

  lemma ReconcileSteps(e: Engine)
    ensures Step(e, DoStartReconcile) == StartReconcile(e)
    ensures Step(e, DoEndReconcile(true, false)) == EndReconcile(e, true, false)
  {
    hide StartReconcile, EndReconcile, Appends;
  }

  lemma RestoreStarts(e: Engine)
    requires Stocked(e, RETAINED_LIMIT)
    ensures
      var next := RunMaintenance(RequestMaintenance(e, 0, true));
      && Inv(next) && next == e.(journal := next.journal, executing := true, tasks := [Maintaining])
      && next.journal.jobs == e.journal.jobs
      && next.journal.maintenance == Some(Maintenance(0, true, Running, Early, 1))
      && Last(next.journal) == Last(e.journal) + 2
  {
    hide Tally, Contiguous, JobsSound, MaintenanceSound, Reserved, Ordered, OffHostSound;
    StockedTally(e, RETAINED_LIMIT);
    assert Stock(e.journal.jobs[0], 0);
    RequestKeeps(e, 0, true);
    RunMaintenanceKeeps(RequestMaintenance(e, 0, true));
  }

  lemma RestoreFails(e: Engine)
    requires Inv(e) && e.tasks == [Maintaining]
    requires e.journal.maintenance == Some(Maintenance(0, true, Running, Early, 1))
    requires !OffHostBusy(e) && !e.downloading && !e.stranded && Tally(Works, e.journal.jobs) == 0
    requires e.jobEvents == JOB_EVENTS
    ensures
      var next := FinishMaintenance(Progress(e, 0, Restarting, 90), 0, false);
      && Idle(next) && Recoverable(next.journal) && next.journal.jobs == e.journal.jobs
      && Last(next.journal) == Last(e.journal) + 1 && next.journal.events != []
  {
    hide Tally, JobsSound, Reserved, Ordered, OffHostSound;
    ProgressKeeps(e, 0, Restarting, 90);
    var mid := Progress(e, 0, Restarting, 90);
    assert Last(mid.journal) == Last(e.journal);
    FinishKeeps(mid, 0, false);
    CloseKeeps(mid, 0);
  }

  /** A restore fails just before its end. */
  lemma RestoreExposes(e: Engine) returns (next: Engine)
    requires Stocked(e, RETAINED_LIMIT)
    ensures
      var mid := RunMaintenance(RequestMaintenance(e, 0, true));
      next == FinishMaintenance(Progress(mid, 0, Restarting, 90), 0, false)
    ensures Idle(next) && Recoverable(next.journal) && next.journal.jobs == e.journal.jobs && next.journal.events != []
    ensures Last(next.journal) == Last(e.journal) + 3
  {
    hide Stocked, Inv, Tally, Recoverable, Last, RequestMaintenance, RunMaintenance, Progress, FinishMaintenance;
    StockedIs(e, RETAINED_LIMIT);
    RestoreStarts(e);
    var mid := RunMaintenance(RequestMaintenance(e, 0, true));
    RestoreFails(mid);
    next := FinishMaintenance(Progress(mid, 0, Restarting, 90), 0, false);
  }

  lemma ReachExposure() returns (actions: seq<Action>, e: Engine)
    ensures e == Run(NewEngine(0, JOB_EVENTS), actions) && Inv(e) && !e.stranded
    ensures Exposed(e) && Admitted(e, RETAINED_LIMIT, None).Some?
  {
    hide Stocked, Inv, Tally, Exposed, Admitted, Run, NewEngine, Last, OffHostBusy,
      RequestMaintenance, RunMaintenance, Progress, FinishMaintenance, Acknowledge;
    var start := NewEngine(0, JOB_EVENTS);
    actions := StockAll(RETAINED_LIMIT);
    e := Run(start, actions);
    StockedIs(e, RETAINED_LIMIT);
    var failed := RestoreExposes(e);
    IdleAcknowledges(failed);
    ExposedAdmits(Acknowledge(failed, Last(failed.journal)));
    actions, e := RunRestore(actions, e, Last(failed.journal));
  }

  lemma RunRestore(actions: seq<Action>, e: Engine, n: nat) returns (longer: seq<Action>, last: Engine)
    requires e == Run(NewEngine(0, JOB_EVENTS), actions)
    ensures last == Run(NewEngine(0, JOB_EVENTS), longer)
    ensures
      var mid := RunMaintenance(RequestMaintenance(e, 0, true));
      last == Acknowledge(FinishMaintenance(Progress(mid, 0, Restarting, 90), 0, false), n)
  {
    hide Run, NewEngine, RequestMaintenance, RunMaintenance, Progress, FinishMaintenance, Acknowledge, Step;
    longer, last := RunOn(actions, e, DoRequestMaintenance(0, true));
    RestoreSteps(e, n);
    longer, last := RunOn(longer, last, DoRunMaintenance);
    RestoreSteps(RequestMaintenance(e, 0, true), n);
    RestoreSteps(last, n);
    longer, last := RunOn(longer, last, DoProgress(0, Restarting, 90));
    RestoreSteps(last, n);
    longer, last := RunOn(longer, last, DoFinishMaintenance(0, false));
    RestoreSteps(last, n);
    longer, last := RunOn(longer, last, DoAcknowledge(n));
  }

  lemma RestoreSteps(e: Engine, n: nat)
    ensures Step(e, DoRequestMaintenance(0, true)) == RequestMaintenance(e, 0, true)
    ensures Step(e, DoRunMaintenance) == RunMaintenance(e)
    ensures Step(e, DoProgress(0, Restarting, 90)) == Progress(e, 0, Restarting, 90)
    ensures Step(e, DoFinishMaintenance(0, false)) == FinishMaintenance(e, 0, false)
    ensures Step(e, DoAcknowledge(n)) == Acknowledge(e, n)
  {
    hide RequestMaintenance, RunMaintenance, Progress, FinishMaintenance, Acknowledge, Appends;
  }

  lemma RunOn(actions: seq<Action>, e: Engine, a: Action) returns (longer: seq<Action>, last: Engine)
    requires e == Run(NewEngine(0, JOB_EVENTS), actions)
    ensures last == Run(NewEngine(0, JOB_EVENTS), longer) == Step(e, a)
  {
    hide Step;
    RunTwo(e, a, a);
    RunJoins(NewEngine(0, JOB_EVENTS), actions, [a]);
    longer, last := actions + [a], Step(e, a);
  }

  /** Some run of a new store comes to a removal whose record is refused. */
  lemma StrandingIsReachable()
    ensures exists actions, id :: Lost(Run(NewEngine(0, JOB_EVENTS), actions), id)
  {
    hide Lost, Inv, Exposed, Admitted, Start, Run, Last, NewEngine;
    var actions, e := ReachExposure();
    RunTwo(e, DoStart(RETAINED_LIMIT), DoStart(RETAINED_LIMIT));
    var rest := ExposedJobMayStrand(e, RETAINED_LIMIT);
    RunJoins(e, [DoStart(RETAINED_LIMIT)], rest);
    RunJoins(NewEngine(0, JOB_EVENTS), actions, [DoStart(RETAINED_LIMIT)] + rest);
  }

  lemma StockedIs(e: Engine, n: nat)
    requires Stocked(e, n)
    ensures Idle(e) && Last(e.journal) <= 3 * n && |e.journal.jobs| == n && IndexOf(e.journal.jobs, n) == n
    ensures Tally(Retains, e.journal.jobs) == n && Tally(Works, e.journal.jobs) == 0
  {
    StockedTally(e, n);
  }

  lemma ExposedAdmits(e: Engine)
    requires Idle(e) && Recoverable(e.journal) && e.journal.events == [] && Last(e.journal) <= 1000
    requires |e.journal.jobs| == RETAINED_LIMIT == Tally(Retains, e.journal.jobs) && Tally(Works, e.journal.jobs) == 0
    requires IndexOf(e.journal.jobs, RETAINED_LIMIT) == RETAINED_LIMIT
    ensures Exposed(e) && Admitted(e, RETAINED_LIMIT, None).Some?
  {
    hide Tally;
  }
}
