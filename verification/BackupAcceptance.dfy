/** When the engine accepts what it is asked, exactly: no request, due slot or update is refused for
    another reason than those the source gives, and an accepted one has its full effect. */
module BackupAcceptance {
  import opened Durability
  import opened BackupJournal
  import opened BackupRetention
  import opened BackupEngine
  import opened BackupSafety
  import opened BackupRuns

  /** Nothing is executed, downloaded, maintained or changed remotely. */
  predicate Still(e: Engine) {
    !e.executing && !e.downloading && !OffHostBusy(e) && !MaintenanceActive(e.journal)
  }

  ghost predicate NoneActive(jobs: seq<Job>) {
    forall job :: job in jobs ==> job.state != Queued && job.state != Running
  }

  /** A new id is one that no listed job has. */
  ghost predicate NewId(jobs: seq<Job>, id: nat) {
    forall job :: job in jobs ==> job.id != id
  }

  lemma NewIdIs(jobs: seq<Job>, id: nat)
    requires NewId(jobs, id)
    ensures IndexOf(jobs, id) == |jobs|
  {
    forall k | 0 <= k < |jobs| ensures jobs[k].id != id { assert jobs[k] in jobs; }
  }

  /** A backup is admitted if and only if the engine is still, no job is active and the journal has
      room for the whole of it: neither the trim nor the record of the request ever fails. */
  lemma AdmittedIff(e: Engine, id: nat, slot: Option<nat>)
    requires Inv(e) && NewId(e.journal.jobs, id)
    ensures Admitted(e, id, slot).Some? <==>
              Still(e) && NoneActive(e.journal.jobs) && Room(e.journal) >= e.jobEvents
  {
    hide Tally, Contiguous, MaintenanceSound, Reserved, Exclusive, OffHostSound, Ordered, Trimmed, IndexOf, Appends;
    var jobs := e.journal.jobs;
    TallyNone(Works, jobs);
    assert NoneActive(jobs) <==> forall job :: job in jobs ==> !Is(Works, job);
    if NoneActive(jobs) {
      AdmissionTrims(jobs);
      NewIdIs(Trimmed(jobs, JOBS_LIMIT - 1).value, id);
      RoomForOne(e, id, slot);
    }
  }

  lemma RoomForOne(e: Engine, id: nat, slot: Option<nat>)
    requires Trimmed(e.journal.jobs, JOBS_LIMIT - 1).Some? && e.jobEvents >= 1
    ensures
      var draft := e.journal.(jobs := Trimmed(e.journal.jobs, JOBS_LIMIT - 1).value +
                                      [Job(id, slot, Queued, None, Unreplicated, false)]);
      Room(draft) == Room(e.journal)
  {
    hide Trimmed;
  }

  /** A due slot of an enabled schedule is admitted and started if and only if the engine is still,
      no job is active and there is room; its job is the one that runs next. */
  lemma DueIsAdmittedIff(e: Engine, id: nat)
    requires Inv(e) && NewId(e.journal.jobs, id)
    ensures
      var c := e.journal.configuration;
      Launch(e, id).slots != e.slots <==>
        && Still(e) && NoneActive(e.journal.jobs) && Room(e.journal) >= e.jobEvents
        && c.enabled && c.next.Some? && c.next.value <= e.clock
  {
    hide Tally, Admitted, First, NextRun, Room, JobsSound, Contiguous, MaintenanceSound, Reserved, OffHostSound, Begin,
      Ordered, TaskSound;
    var j := e.journal;
    NoWork(j.jobs);
    if Still(e) && NoneActive(j.jobs) && IsDue(j.configuration, e.clock) {
      var due := j.configuration.next.value;
      AdmittedIff(e, id, Some(due));
      var r := Admitted(e, id, Some(due));
      if r.Some? {
        AdmittedKeeps(e, id, Some(due));
        var next := NextRun(due, e.clock, Milliseconds(j.configuration.hours));
        var draft := r.value.(configuration := r.value.configuration.(next := Some(next)));
        Reconfigured(r.value, draft.configuration);
        BeginsSlot(e, draft, |draft.jobs| - 1, e.slots + [due]);
      }
    } else if First(Waits, j.jobs) < |j.jobs| {
      BeginKeepsSlots(e, First(Waits, j.jobs));
    }
  }

  lemma NoWork(jobs: seq<Job>)
    ensures NoneActive(jobs) <==> First(Waits, jobs) == |jobs| && First(Runs, jobs) == |jobs|
  {
    if First(Waits, jobs) < |jobs| { assert jobs[First(Waits, jobs)] in jobs; }
    if First(Runs, jobs) < |jobs| { assert jobs[First(Runs, jobs)] in jobs; }
  }

  lemma BeginKeepsSlots(e: Engine, k: nat)
    requires k < |e.journal.jobs|
    ensures Begin(e, e.journal, k, e.slots).slots == e.slots
  {
    hide Begun;
  }

  lemma BeginsSlot(e: Engine, j: Journal, k: nat, slots: seq<nat>)
    requires Sound(j) && k < |j.jobs| && j.jobs[k].state == Queued && Tally(Waits, j.jobs) == 1
    requires Tally(Runs, j.jobs) == 0 && !MaintenanceActive(j)
    ensures Begin(e, j, k, slots).slots == slots && Begin(e, j, k, slots).tasks == e.tasks + [Backup(j.jobs[k].id)]
  {
    hide Tally, Sound, Begun, TaskSound;
    BegunKeeps(j, k);
  }

  /** A queued job is taken up whenever the engine is still. */
  lemma QueuedIsTaken(e: Engine, id: nat, k: nat)
    requires Inv(e) && Still(e) && k < |e.journal.jobs| && e.journal.jobs[k].state == Queued
    ensures Launch(e, id).tasks == [Backup(e.journal.jobs[k].id)] && !Launch(e, id).stranded == !e.stranded
  {
    hide Tally, Begin, Room, DistinctIds, Contiguous, MaintenanceSound, Reserved, OffHostSound, Ordered, TaskSound;
    var j := e.journal;
    WorksSplit(j.jobs);
    NoFirst(Waits, j.jobs);
    NoFirst(Runs, j.jobs);
    assert j.jobs[k] in j.jobs;
    TallyNone(Waits, j.jobs);
    assert Is(Waits, j.jobs[k]);
    if First(Waits, j.jobs) < k { TwoWait(j.jobs, First(Waits, j.jobs), k); }
    BeginsSlot(e, j, k, e.slots);
    BeginIsFunded(e, j, k);
  }

  lemma TwoWait(jobs: seq<Job>, i: nat, k: nat)
    requires i < k < |jobs| && Is(Waits, jobs[i]) && Is(Waits, jobs[k])
    ensures Tally(Waits, jobs) >= 2
  {
    assert jobs == jobs[..k] + jobs[k..];
    TallySplit(Waits, jobs[..k], jobs[k..]);
    TallyNone(Waits, jobs[..k]);
    assert jobs[..k][i] in jobs[..k];
  }

  lemma BeginIsFunded(e: Engine, j: Journal, k: nat)
    requires Sound(j) && k < |j.jobs| && j.jobs[k].state == Queued && Tally(Waits, j.jobs) == 1
    requires Tally(Runs, j.jobs) == 0 && !MaintenanceActive(j)
    ensures Begin(e, j, k, e.slots).stranded == e.stranded
  {
    hide Tally, Sound, Begun, TaskSound;
    BegunKeeps(j, k);
  }

  /** An update is accepted if and only if its values are in range, its revision is the current one,
      the remote store is at rest and there is room for it beside what accepted work may need. */
  lemma UpdateIff(e: Engine, expected: nat, enabled: bool, hours: nat, retention: nat)
    requires Inv(e)
    ensures
      var j, next := e.journal, Update(e, expected, enabled, hours, retention);
      var busy := e.executing || !NoneActive(j.jobs);
      var accepted :=
        && 1 <= hours <= 8760 && 1 <= retention <= 50 && expected == j.configuration.revision && !OffHostBusy(e)
        && Room(j) >= (if busy then e.jobEvents else if MaintenanceActive(j) then 5 else 1);
      && (next != e <==> accepted)
      && (accepted ==>
            var c, d := j.configuration, next.journal.configuration;
            && d.revision == c.revision + 1 && d.enabled == enabled && d.hours == hours && d.retention == retention
            && (!enabled ==> d.next == None)
            && (enabled && c.enabled && hours == c.hours ==> d.next == c.next)
            && (enabled && !(c.enabled && hours == c.hours) ==> d.next == Some(e.clock + hours * 3_600_000)))
  {
    hide Tally, Sound, Exclusive, OffHostSound, Ordered, Appends;
    var jobs := e.journal.jobs;
    TallyNone(Works, jobs);
    assert NoneActive(jobs) <==> forall job :: job in jobs ==> !Is(Works, job);
  }

  /** Maintenance is accepted if and only if the engine is still, no job is active, the target is
      listed, a backup to be restored is a retained success, and four places are left. */
  lemma RequestIff(e: Engine, target: nat, restore: bool)
    requires Inv(e)
    ensures
      var j, next := e.journal, RequestMaintenance(e, target, restore);
      var accepted :=
        && Still(e) && NoneActive(j.jobs) && Room(j) >= 4
        && exists k :: 0 <= k < |j.jobs| && j.jobs[k].id == target &&
                       (restore ==> j.jobs[k].state == Succeeded && j.jobs[k].retained);
      && (next != e <==> accepted)
      && (accepted ==> next.journal.maintenance == Some(Maintenance(target, restore, Queued, Early, 0)))
  {
    hide Tally, Contiguous, MaintenanceSound, Reserved, Exclusive, OffHostSound, Ordered, Appends;
    var j := e.journal;
    TallyNone(Works, j.jobs);
    assert NoneActive(j.jobs) <==> forall job :: job in j.jobs ==> !Is(Works, job);
    var i := IndexOf(j.jobs, target);
    forall k | 0 <= k < |j.jobs| && j.jobs[k].id == target ensures k == i { IndexOfDistinct(j.jobs, k); }
    if i < |j.jobs| { assert j.jobs[i] in j.jobs; }
  }

  /** An acknowledgement is accepted if and only if it names an event still held, and exactly those
      up to it go. */
  lemma AcknowledgeIff(e: Engine, n: nat)
    requires Inv(e)
    ensures
      var j, next := e.journal, Acknowledge(e, n);
      && (next != e <==> j.acknowledged < n <= Last(j))
      && (next != e ==>
            && next.journal.acknowledged == n && next.journal.events == j.events[n - j.acknowledged..]
            && next == e.(journal := j.(acknowledged := n, events := next.journal.events)))
  {
    hide Tally, JobsSound, MaintenanceSound, Reserved, Exclusive, OffHostSound, Ordered, After;
    var j := e.journal;
    if j.acknowledged < n <= Last(j) {
      assert j.events[n - j.acknowledged - 1].sequence == n;
      AfterIs(j.events, j.acknowledged + 1, n);
    }
  }

  /** A completed backup is recorded as it ended, retained if fewer than 50 others are, and every
      other job stays as it is. */
  lemma CompletionRecords(j: Journal, k: nat, ok: bool, artifact: Option<nat>, remote: Remote)
    requires Sound(j) && k < |j.jobs| && j.jobs[k].state == Running
    ensures
      var r := Completed(j, k, ok, artifact, remote);
      && r.Some? && |r.value.jobs| == |j.jobs|
      && (forall i :: 0 <= i < |j.jobs| && i != k ==> r.value.jobs[i] == j.jobs[i])
      && r.value.jobs[k].id == j.jobs[k].id && r.value.jobs[k].slot == j.jobs[k].slot
      && r.value.jobs[k].artifact == artifact && r.value.jobs[k].remote == remote
      && r.value.jobs[k].state == (if ok then Succeeded else Failed)
      && r.value.jobs[k].retained == (ok && Tally(Retains, j.jobs) < 50)
  {
    hide Tally, Room, Last, Contiguous, MaintenanceSound, Reserved, LatestSuccess, Dropped, Committed, Appends;
    CompletedKeeps(j, k, ok, artifact, remote);
  }

  /** Queued maintenance whose target is listed is started if and only if nothing else is going on,
      and only a restore shows progress at once. */
  lemma MaintenanceIsTakenIff(e: Engine)
    requires Inv(e)
    ensures
      var j, next := e.journal, RunMaintenance(e);
      var taken :=
        && !e.executing && !e.downloading && !OffHostBusy(e)
        && j.maintenance.Some? && j.maintenance.value.state == Queued;
      && (next != e <==> taken)
      && (taken ==>
            var m := j.maintenance.value;
            && next.tasks == e.tasks + [Maintaining] && next.executing && next.stranded == e.stranded
            && next.journal.maintenance == Some(m.(state := Running, percent := if m.restore then 1 else m.percent))
            && next.journal.jobs == j.jobs)
  {
    hide Tally, JobsSound, Contiguous, Reserved, Exclusive, OffHostSound, Ordered, Appends;
  }

  /** Reported progress of a running restore is taken over if and only if it does not fall and does
      not claim the end. */
  lemma ProgressIff(e: Engine, phase: Phase, percent: nat)
    requires Inv(e) && e.tasks == [Maintaining]
    ensures e.journal.maintenance.Some?
    ensures
      var m, next := e.journal.maintenance.value, Progress(e, 0, phase, percent);
      next.journal.maintenance ==
        Some(if m.restore && phase != Finished && m.percent <= percent < 100 then m.(phase := phase, percent := percent)
             else m)
  {
    hide Tally, Sound, OffHostSound, Ordered, Appends;
  }

  /** Maintenance ends as it did: a deletion that succeeded takes its target off the list and leaves
      every other job, nothing else changes the jobs. */
  lemma MaintenanceEnds(j: Journal, ok: bool)
    requires Sound(j) && TaskSound(j, Maintaining)
    ensures
      var m, r := j.maintenance.value, Ended(j, j.maintenance.value, ok);
      && r.Some? && r.value.maintenance.Some?
      && r.value.maintenance.value == (if ok then m.(state := Succeeded, phase := Finished, percent := 100)
                                       else m.(state := Failed))
      && (m.restore || !ok ==> r.value.jobs == j.jobs)
      && (!m.restore && ok ==>
            && NewId(r.value.jobs, m.target)
            && (forall job :: job in j.jobs && job.id != m.target ==> job in r.value.jobs)
            && (forall job :: job in r.value.jobs ==> job in j.jobs))
  {
    hide Tally, Without, Contiguous, MaintenanceSound, Reserved, Room, Last, Appends, Listed;
    EndedKeeps(j, ok);
    WithoutIs(j.jobs, j.maintenance.value.target);
  }

  lemma WithoutIs(jobs: seq<Job>, id: nat)
    requires DistinctIds(jobs)
    ensures
      var next := Without(jobs, id);
      && NewId(next, id)
      && (forall job :: job in jobs && job.id != id ==> job in next)
      && (forall job :: job in next ==> job in jobs)
  {
    var k := IndexOf(jobs, id);
    if k < |jobs| {
      var next := Without(jobs, id);
      assert forall i :: 0 <= i < |next| ==> next[i] == if i < k then jobs[i] else jobs[i + 1];
      forall job | job in jobs && job.id != id ensures job in next {
        var i :| 0 <= i < |jobs| && jobs[i] == job;
        assert next[if i < k then i else i - 1] == job;
      }
    }
  }

  /** A download is opened, and a change of the remote store asked for, if and only if nothing else
      is going on. */
  lemma OpensIff(e: Engine)
    requires Inv(e)
    ensures AcquireDownload(e) ==
              if Still(e) && NoneActive(e.journal.jobs) then e.(downloading := true, downloads := 1) else e
    ensures AskChange(e) ==
              if && e.change == NoChange && !e.reconciling && !e.executing && !e.downloading
                 && !MaintenanceActive(e.journal) && NoneActive(e.journal.jobs)
              then e.(change := Asked) else e
  {
    hide Tally, Sound, OffHostSound, Ordered, Appends, TaskSound;
    var jobs := e.journal.jobs;
    TallyNone(Works, jobs);
    assert NoneActive(jobs) <==> forall job :: job in jobs ==> !Is(Works, job);
  }

  /** A change asked for is allowed if and only if the engine is at rest and has room to record it;
      otherwise it is given up. */
  lemma AllowedIff(e: Engine)
    requires Inv(e) && e.change == Asked && !e.reconciling
    ensures AllowChange(e).change ==
              if && !e.blocked && !e.executing && !e.downloading && !MaintenanceActive(e.journal)
                 && NoneActive(e.journal.jobs) && Room(e.journal) >= 1
              then Allowed else NoChange
  {
    hide Tally, Sound, OffHostSound, Ordered, Appends, TaskSound, Room;
    var jobs := e.journal.jobs;
    TallyNone(Works, jobs);
    assert NoneActive(jobs) <==> forall job :: job in jobs ==> !Is(Works, job);
  }

  /** A reconciliation that succeeds lifts the fence and has recorded the pending change, once. */
  lemma ReconciledIff(e: Engine, took: bool)
    requires Inv(e) && e.reconciling
    ensures
      var next := EndReconcile(RecordChange(e), true, took);
      && !next.reconciling && !next.blocked && !next.pending && !next.recorded && next.stranded == e.stranded
      && |next.journal.events| == |e.journal.events| + (if e.pending && !e.recorded then 1 else 0)
      && (e.pending && !e.recorded ==> next.journal.events[|e.journal.events|].kind == OffHostUpdated)
  {
    hide Tally, Sound, Exclusive, Ordered, Appends;
  }
}
