/** What every step of the backup engine keeps, and what holds over whole runs. */
module BackupSafety {
  import opened Durability
  import opened BackupJournal
  import opened BackupRetention
  import opened BackupEngine

  // ---------- The invariant ----------

  ghost predicate JobsSound(jobs: seq<Job>) {
    && DistinctIds(jobs) && |jobs| <= JOBS_LIMIT
    && Tally(Retains, jobs) <= RETAINED_LIMIT && Tally(Works, jobs) <= 1
    && (forall i :: 0 <= i < |jobs| && jobs[i].retained ==> jobs[i].state == Succeeded)
  }

  /** Sequence numbers run on from the acknowledged one without a gap. */
  ghost predicate Contiguous(j: Journal) {
    && (forall i :: 0 <= i < |j.events| ==> j.events[i].sequence == j.acknowledged + 1 + i)
    && |j.events| <= CAPACITY && j.acknowledged + |j.events| <= SAFE_INTEGER
  }

  ghost predicate MaintenanceSound(j: Journal) {
    MaintenanceActive(j) ==>
      && Tally(Works, j.jobs) == 0
      && IndexOf(j.jobs, j.maintenance.value.target) < |j.jobs|
      && Room(j) >= if j.maintenance.value.state == Running && j.maintenance.value.restore then 2 else 3
  }

  function Late(j: Journal): nat {
    if Recoverable(j) then 1 else 0
  }

  /** What is set aside for an accepted job whatever happened before it. */
  ghost predicate Reserved(j: Journal) {
    && (Tally(Waits, j.jobs) > 0 ==> Room(j) >= 51 + Late(j))
    && (Tally(Runs, j.jobs) > 0 ==> Room(j) >= 50 + Late(j))
  }

  ghost predicate Sound(j: Journal) {
    && JobsSound(j.jobs) && Contiguous(j) && MaintenanceSound(j) && Reserved(j)
    && 1 <= j.configuration.hours && 1 <= j.configuration.retention <= 50
  }

  ghost predicate TaskSound(j: Journal, t: Task) {
    match t
    case Backup(id) => IndexOf(j.jobs, id) < |j.jobs| && j.jobs[IndexOf(j.jobs, id)].state == Running
    case Pruning(id) => Committed(j.jobs, id) && Tally(Works, j.jobs) == 0 && !MaintenanceActive(j)
    case Removing(id, candidate) =>
      && Committed(j.jobs, id) && Tally(Works, j.jobs) == 0 && !MaintenanceActive(j)
      && candidate != id && Removable(j.jobs, id, candidate)
    case Maintaining => j.maintenance.Some? && j.maintenance.value.state == Running
    case Recovering => Recoverable(j)
  }

  /** Nothing is going on that a change of the remote store could disturb. */
  ghost predicate Quiet(e: Engine) {
    e.tasks == [] && e.downloads == 0 && Tally(Works, e.journal.jobs) == 0 && !MaintenanceActive(e.journal)
  }

  /** At most one of: a task, a download, a change of the remote store.  The flags say which. */
  ghost predicate Exclusive(e: Engine) {
    && |e.tasks| <= 1 && e.executing == (|e.tasks| == 1)
    && (|e.tasks| == 1 ==> TaskSound(e.journal, e.tasks[0]))
    && e.downloads <= 1 && e.downloading == (e.downloads == 1)
    && (e.downloads == 1 ==> e.tasks == [] && Tally(Works, e.journal.jobs) == 0 && !MaintenanceActive(e.journal))
    && (e.change == Allowed || e.change == Closing ==> Quiet(e))
  }

  /** A pending remote change fences other work and has room for its event. */
  ghost predicate OffHostSound(e: Engine) {
    && (e.recorded ==> e.pending)
    && (e.change == Allowed ==> Room(e.journal) >= 1 && !e.recorded && !e.reconciling)
    && (e.change == Closing ==> e.blocked && e.reconciling)
    && (e.pending ==> Quiet(e) && (e.change == Allowed || e.blocked) && (e.recorded || Room(e.journal) >= 1))
  }

  /** Admitted slots increase, and the next one lies beyond them. */
  ghost predicate Ordered(slots: seq<nat>, clock: nat, next: Option<nat>) {
    && (forall i, k :: 0 <= i < k < |slots| ==> slots[i] < slots[k])
    && (forall i :: 0 <= i < |slots| ==> slots[i] <= clock)
    && (next.Some? ==> forall i :: 0 <= i < |slots| ==> slots[i] < next.value)
  }

  ghost predicate Inv(e: Engine) {
    && Sound(e.journal) && Exclusive(e) && OffHostSound(e)
    && Ordered(e.slots, e.clock, e.journal.configuration.next)
    && e.jobEvents >= JOB_EVENTS
  }

  /** Too few numbers are left for an update beside accepted work: the configuration stays. */
  predicate Fixed(e: Engine) {
    SAFE_INTEGER - Last(e.journal) < e.jobEvents
  }

  /** How many removals an accepted job may have to record if it finds `n` others retained. */
  function Removals(e: Engine, n: nat): nat {
    if !Fixed(e) then n
    else if n < e.journal.configuration.retention then 0
    else n + 1 - e.journal.configuration.retention
  }

  /** What a reservation beyond the configured one leaves for a late restore recovery. */
  function Margin(e: Engine): nat {
    if e.jobEvents > JOB_EVENTS then Late(e.journal) else 0
  }

  /** Room for everything the accepted job may still have to record: its own steps, one removal
      for each job that goes, and a late restore recovery while it waits. */
  ghost predicate Funded(e: Engine) {
    var j := e.journal;
    && (Tally(Waits, j.jobs) > 0 ==> Room(j) >= 2 + Removals(e, Tally(Retains, j.jobs)) + Late(j) && !AtRisk(e))
    && (|e.tasks| == 1 && e.tasks[0].Backup? ==> Room(j) >= 1 + Removals(e, Tally(Retains, j.jobs)) + Margin(e))
    && (|e.tasks| == 1 && (e.tasks[0].Pruning? || e.tasks[0].Removing?) ==>
          Room(j) >= Removals(e, Tally(Others(e.tasks[0].id), j.jobs)) + Margin(e))
    && (|e.tasks| == 1 && e.tasks[0].Removing? ==> Room(j) >= 1 + Margin(e))
  }

  /** The reservation is the configured one, all 50 places are taken, and a restore is still
      recoverable. */
  predicate Tight(e: Engine) {
    e.jobEvents <= JOB_EVENTS && Recoverable(e.journal) && Tally(Retains, e.journal.jobs) == RETAINED_LIMIT
  }

  /** What a caller can check before it asks for a backup: besides, one backup is to be kept, or
      numbers enough are left for an update to say so after the request. */
  predicate Exposed(e: Engine) {
    Tight(e) && (e.journal.configuration.retention == 1 || Last(e.journal) + e.jobEvents < SAFE_INTEGER)
  }

  /** The same of a request that was accepted. */
  predicate AtRisk(e: Engine) {
    Tight(e) && (e.journal.configuration.retention == 1 || !Fixed(e))
  }

  /** What a step owes: the invariant; and a funded engine stays funded and serves its work. */
  ghost predicate Keeps(e: Engine, next: Engine) {
    && Inv(next)
    && (Funded(e) ==> Funded(next) && (next.stranded ==> e.stranded))
  }

  /** Funding depends on the journal and the tasks alone. */
  lemma FundedSame(e: Engine, next: Engine)
    requires next.journal == e.journal && next.tasks == e.tasks && next.jobEvents == e.jobEvents
    ensures Funded(next) == Funded(e)
  {
    hide Tally, Room, Late, Recoverable;
  }

  /** With fewer numbers left and no more others there are no more removals to come. */
  lemma RemovalsShrink(e: Engine, next: Engine, n: nat, m: nat)
    requires m <= n && Last(e.journal) <= Last(next.journal) && next.jobEvents == e.jobEvents
    requires 1 <= next.journal.configuration.retention == e.journal.configuration.retention
    ensures Removals(next, m) <= Removals(e, n) <= n
    ensures m < n && Removals(e, n) > 0 ==> Removals(next, m) < Removals(e, n)
  {
    hide Last;
  }

  // ---------- Journal lemmas ----------

  lemma AuditKeeps(j: Journal, kind: Kind, job: Option<nat>)
    requires Contiguous(j) && Room(j) >= 1
    ensures
      var r := Audit(j, kind, job).value;
      Contiguous(r) && Room(r) == Room(j) - 1 && Last(r) == Last(j) + 1 && r == j.(events := r.events)
  {
  }

  lemma RoomIsNat(j: Journal)
    requires Sound(j)
    ensures Room(j) >= 0
  {
    hide Tally;
  }

  /** One job replaced by another under the same id. */
  lemma Replaced(jobs: seq<Job>, k: nat, job: Job)
    requires DistinctIds(jobs) && k < |jobs| && job.id == jobs[k].id
    ensures
      var next := jobs[k := job];
      && DistinctIds(next)
      && Tally(Retains, next) + (if jobs[k].retained then 1 else 0) ==
         Tally(Retains, jobs) + (if job.retained then 1 else 0)
      && Tally(Waits, next) + (if jobs[k].state == Queued then 1 else 0) ==
         Tally(Waits, jobs) + (if job.state == Queued then 1 else 0)
      && Tally(Runs, next) + (if jobs[k].state == Running then 1 else 0) ==
         Tally(Runs, jobs) + (if job.state == Running then 1 else 0)
      && Tally(Works, next) == Tally(Waits, next) + Tally(Runs, next)
      && Tally(Works, jobs) == Tally(Waits, jobs) + Tally(Runs, jobs)
      && IndexOf(next, job.id) == IndexOf(jobs, job.id) == k
  {
    TallyAt(Retains, jobs, k, job);
    TallyAt(Waits, jobs, k, job);
    TallyAt(Runs, jobs, k, job);
    WorksSplit(jobs);
    WorksSplit(jobs[k := job]);
    IndexOfDistinct(jobs, k);
    assert DistinctIds(jobs[k := job]);
    IndexOfDistinct(jobs[k := job], k);
  }

  lemma NoFirst(m: Mark, jobs: seq<Job>)
    ensures First(m, jobs) == |jobs| <==> Tally(m, jobs) == 0
  {
    TallyNone(m, jobs);
    if First(m, jobs) == |jobs| { assert forall job :: job in jobs ==> !Is(m, job); }
    else { assert jobs[First(m, jobs)] in jobs; }
  }

  // ---------- Admission ----------

  lemma {:induction false} IndexOfAppended(jobs: seq<Job>, job: Job, id: nat)
    ensures IndexOf(jobs + [job], id) ==
              if IndexOf(jobs, id) < |jobs| then IndexOf(jobs, id)
              else if job.id == id then |jobs| else |jobs| + 1
  {
    var all := jobs + [job];
    var k := IndexOf(all, id);
    assert k < |jobs| ==> all[k] == jobs[k];
    assert k == |jobs| ==> all[k] == job;
    assert IndexOf(jobs, id) < |jobs| ==> all[IndexOf(jobs, id)].id == id;
    assert all[|jobs|] == job;
  }

  lemma Appended(jobs: seq<Job>, job: Job)
    requires DistinctIds(jobs) && IndexOf(jobs, job.id) == |jobs|
    ensures DistinctIds(jobs + [job])
    ensures forall m :: Tally(m, jobs + [job]) == Tally(m, jobs) + (if Is(m, job) then 1 else 0)
  {
    forall m ensures Tally(m, jobs + [job]) == Tally(m, jobs) + (if Is(m, job) then 1 else 0) {
      TallySplit(m, jobs, [job]);
    }
  }

  /** An admission never fails to trim, and leaves room for the rest of the job. */
  lemma AdmittedKeeps(e: Engine, id: nat, slot: Option<nat>)
    requires Inv(e) && Admitted(e, id, slot).Some?
    ensures
      var j, r := e.journal, Admitted(e, id, slot).value;
      && Sound(r) && Room(r) >= e.jobEvents - 1
      && r == j.(jobs := r.jobs, events := r.events) && !MaintenanceActive(r)
      && r.jobs != [] && r.jobs[|r.jobs| - 1] == Job(id, slot, Queued, None, Unreplicated, false)
      && First(Waits, r.jobs) == |r.jobs| - 1
      && Tally(Waits, r.jobs) == 1 && Tally(Runs, r.jobs) == 0
      && Tally(Retains, r.jobs) == Tally(Retains, j.jobs)
  {
    hide Tally;
    var j := e.journal;
    AdmissionTrims(j.jobs);
    var kept := Trimmed(j.jobs, JOBS_LIMIT - 1).value;
    var job := Job(id, slot, Queued, None, Unreplicated, false);
    Appended(kept, job);
    WorksSplit(kept);
    var draft := j.(jobs := kept + [job]);
    AuditKeeps(draft, JobRequested, Some(id));
    var r := Admitted(e, id, slot).value;
    assert r.jobs == kept + [job];
    assert JobsSound(r.jobs);
    NoFirst(Waits, kept);
    assert forall i :: 0 <= i < |kept| ==> r.jobs[i] == kept[i] && !Is(Waits, r.jobs[i]);
    assert Is(Waits, r.jobs[|kept|]);
  }

  lemma StartKeeps(e: Engine, id: nat)
    requires Inv(e)
    ensures Inv(Start(e, id)) && Start(e, id).stranded == e.stranded
    ensures Funded(e) && (Admitted(e, id, None).Some? ==> !Exposed(e)) ==> Funded(Start(e, id))
  {
    var r := Admitted(e, id, None);
    if r.Some? {
      hide Admitted;
      AdmittedKeeps(e, id, None);
      WorksSplit(r.value.jobs);
    }
  }

  // ---------- Taking up a job ----------

  lemma BegunKeeps(j: Journal, k: nat)
    requires Sound(j) && k < |j.jobs| && j.jobs[k].state == Queued && Tally(Waits, j.jobs) == 1
    requires Tally(Runs, j.jobs) == 0
    requires !MaintenanceActive(j)
    ensures
      var r := Begun(j, k);
      && r.Some? && Sound(r.value) && Room(r.value) == Room(j) - 1 && Last(r.value) == Last(j) + 1
      && r.value == j.(jobs := r.value.jobs, events := r.value.events)
      && TaskSound(r.value, Backup(j.jobs[k].id))
      && Tally(Waits, r.value.jobs) == 0 && Tally(Runs, r.value.jobs) == 1
      && Tally(Retains, r.value.jobs) == Tally(Retains, j.jobs)
  {
    var job := j.jobs[k].(state := Running);
    Replaced(j.jobs, k, job);
    AuditKeeps(j.(jobs := j.jobs[k := job]), JobStarted, Some(job.id));
  }

  /** The next run is the first time congruent to the slot that lies beyond now. */
  lemma NextRunIs(due: nat, now: nat, interval: nat)
    requires due <= now && interval > 0
    ensures now < NextRun(due, now, interval) <= now + interval
    ensures (NextRun(due, now, interval) - due) % interval == 0
  {
    var q := (now - due) / interval;
    assert now - due == q * interval + (now - due) % interval;
    assert NextRun(due, now, interval) - due == (q + 1) * interval;
    assert (q + 1) * interval == q * interval + interval;
    MultipleIsZero(q + 1, interval);
  }

  lemma MultipleIsZero(q: nat, d: nat)
    requires d > 0
    ensures (q * d) % d == 0
  {
    var n := q * d;
    Remainder(q - n / d, d, n % d);
  }

  lemma {:induction false} Remainder(k: int, d: nat, r: nat)
    requires 0 < d && r < d
    ensures k * d == r ==> r == 0
  {
    if k >= 1 { assert k * d == (k - 1) * d + d; assert (k - 1) * d >= 0; }
    if k < 0 { assert (-k) * d == -(k * d); assert (-k) * d >= 0; }
  }

  lemma BeginKeeps(e: Engine, j: Journal, k: nat, slots: seq<nat>)
    requires Inv(e) && !e.executing && !e.downloading && !OffHostBusy(e)
    requires Sound(j) && k < |j.jobs| && j.jobs[k].state == Queued && Tally(Waits, j.jobs) == 1
    requires Tally(Runs, j.jobs) == 0
    requires !MaintenanceActive(j) && Ordered(slots, e.clock, j.configuration.next)
    ensures Inv(Begin(e, j, k, slots))
    ensures
      var next, draft := Begin(e, j, k, slots), e.(journal := j);
      Room(j) >= 2 + Removals(draft, Tally(Retains, j.jobs)) + Margin(draft) ==>
        Funded(next) && next.stranded == e.stranded
  {
    hide Tally, Begun, Removals, Room, Last;
    BegunKeeps(j, k);
    WorksSplit(Begun(j, k).value.jobs);
    var n := Tally(Retains, j.jobs);
    RemovalsShrink(e.(journal := j), Begin(e, j, k, slots), n, n);
  }

  /** A new configuration leaves the rest of the journal sound. */
  lemma Reconfigured(j: Journal, c: Configuration)
    requires Sound(j) && 1 <= c.hours && 1 <= c.retention <= 50
    ensures
      var r := j.(configuration := c);
      Sound(r) && Room(r) == Room(j) && Late(r) == Late(j)
  {
    hide Tally;
    assert Last(j.(configuration := c)) == Last(j);
  }

  lemma LaunchKeeps(e: Engine, id: nat)
    requires Inv(e)
    ensures Keeps(e, Launch(e, id))
  {
    hide Tally, Begin, Admitted, NextRun, Contiguous, MaintenanceSound, Reserved, Room, DistinctIds, TaskSound, Appends;
    var j := e.journal;
    WorksSplit(j.jobs);
    NoFirst(Waits, j.jobs);
    NoFirst(Runs, j.jobs);
    if e.executing || OffHostBusy(e) || e.downloading || MaintenanceActive(j) || First(Runs, j.jobs) < |j.jobs| {
    } else if First(Waits, j.jobs) < |j.jobs| {
      BeginKeeps(e, j, First(Waits, j.jobs), e.slots);
    } else if Launch(e, id) != e {
      var due := j.configuration.next.value;
      var r := Admitted(e, id, Some(due));
      AdmittedKeeps(e, id, Some(due));
      NextRunIs(due, e.clock, Milliseconds(j.configuration.hours));
      var next := NextRun(due, e.clock, Milliseconds(j.configuration.hours));
      var draft := r.value.(configuration := r.value.configuration.(next := Some(next)));
      Reconfigured(r.value, draft.configuration);
      BeginKeeps(e, draft, |draft.jobs| - 1, e.slots + [due]);
      RemovalsShrink(e.(journal := draft), e.(journal := draft), RETAINED_LIMIT, Tally(Retains, draft.jobs));
    }
  }

  // ---------- Running, removing, settling ----------

  lemma CloseKeeps(e: Engine, t: nat)
    requires Inv(e) && t < |e.tasks|
    ensures Close(e, t).tasks == [] && t == 0
    ensures Keeps(e, Close(e, t)) && Inv(Close(e, t).(stranded := true))
  {
  }

  lemma CompletedKeeps(j: Journal, k: nat, ok: bool, artifact: Option<nat>, remote: Remote)
    requires Sound(j) && k < |j.jobs| && j.jobs[k].state == Running
    ensures
      var r := Completed(j, k, ok, artifact, remote);
      && r.Some? && Sound(r.value) && Room(r.value) == Room(j) - 1 && Last(r.value) == Last(j) + 1
      && !MaintenanceActive(r.value)
      && r.value == j.(jobs := r.value.jobs, events := r.value.events)
      && |r.value.jobs| == |j.jobs| && Tally(Works, r.value.jobs) == 0
      && (ok ==> Committed(r.value.jobs, j.jobs[k].id))
      && Tally(Others(j.jobs[k].id), r.value.jobs) <= Tally(Retains, j.jobs)
      && Tally(Waits, r.value.jobs) == 0 == Tally(Runs, r.value.jobs) && Tally(Runs, j.jobs) == 1
  {
    hide Tally;
    var retained := ok && Tally(Retains, j.jobs) < RETAINED_LIMIT;
    var state := if ok then Succeeded else Failed;
    var job := j.jobs[k].(artifact := artifact, remote := remote, state := state, retained := retained);
    var id := job.id;
    Replaced(j.jobs, k, job);
    var jobs := j.jobs[k := job];
    assert jobs[k] == job;
    RetainedSplit(j.jobs, id);
    TallyAt(Others(id), j.jobs, k, job);
    AuditKeeps(j.(jobs := jobs), if ok then JobSucceeded else JobFailed, Some(id));
  }

  lemma CompleteKeeps(e: Engine, t: nat, ok: bool, artifact: Option<nat>, remote: Remote)
    requires Inv(e)
    ensures Keeps(e, Complete(e, t, ok, artifact, remote))
  {
    hide Tally, Completed, Removals, Room, Last, JobsSound, Contiguous, MaintenanceSound, Reserved;
    if t < |e.tasks| && e.tasks[t].Backup? {
      var next, id := Complete(e, t, ok, artifact, remote), e.tasks[t].id;
      CompletedKeeps(e.journal, IndexOf(e.journal.jobs, id), ok, artifact, remote);
      RemovalsShrink(e, next, Tally(Retains, e.journal.jobs), Tally(Others(id), next.journal.jobs));
    }
  }

  lemma {:induction false} PoolIsOthers(jobs: seq<Job>, id: nat)
    requires DistinctIds(jobs) && forall i :: 0 <= i < |jobs| && jobs[i].retained ==> jobs[i].state == Succeeded
    ensures Tally(Kept(id), jobs) == Tally(Others(id), jobs) +
              (if IndexOf(jobs, id) < |jobs| && jobs[IndexOf(jobs, id)].state == Succeeded then 1 else 0)
  {
    if jobs != [] {
      PoolIsOthers(jobs[1..], id);
    }
  }

  lemma PlannedKeeps(j: Journal, id: nat)
    requires Sound(j) && TaskSound(j, Pruning(id))
    ensures Plan(j.jobs, id, j.configuration.retention) != Invalid
    ensures
      var p := Plan(j.jobs, id, j.configuration.retention);
      p.Removal? ==>
        && TaskSound(j, Removing(id, p.candidate.id))
        && Tally(Others(id), j.jobs) >= j.configuration.retention
  {
    hide Tally, Contiguous, MaintenanceSound, Reserved;
    PlanStops(j.jobs, id, j.configuration.retention);
    PoolIsOthers(j.jobs, id);
    var p := Plan(j.jobs, id, j.configuration.retention);
    if p.Removal? {
      PlanIsSafe(j.jobs, id, j.configuration.retention);
      IndexOfDistinct(j.jobs, First(Expendable(id, Pin(j.jobs, id)), j.jobs));
    }
  }

  lemma DispatchKeeps(e: Engine, t: nat)
    requires Inv(e)
    ensures Keeps(e, Dispatched(e, t))
  {
    hide Tally, JobsSound, Contiguous, MaintenanceSound, Reserved, Plan, Room, Recoverable, Ordered, Committed,
      Removable;
    if t < |e.tasks| && e.tasks[t].Pruning? { PlannedKeeps(e.journal, e.tasks[t].id); }
  }

  lemma RemovedKeeps(j: Journal, id: nat, candidate: nat)
    requires Sound(j) && TaskSound(j, Removing(id, candidate))
    ensures Tally(Others(id), j.jobs) >= 1
    ensures
      var r := Audit(j.(jobs := Pruned(j.jobs, candidate, id)), JobPruned, Some(candidate));
      r.Some? <==> Room(j) >= 1
    ensures Room(j) >= 1 ==>
      var r := Audit(j.(jobs := Pruned(j.jobs, candidate, id)), JobPruned, Some(candidate)).value;
      && Sound(r) && TaskSound(r, Pruning(id)) && Room(r) == Room(j) - 1 && Last(r) == Last(j) + 1
      && r.configuration == j.configuration && r.maintenance == j.maintenance
      && Tally(Works, r.jobs) == 0 == Tally(Waits, r.jobs) && Tally(Runs, r.jobs) == 0
      && Tally(Others(id), r.jobs) == Tally(Others(id), j.jobs) - 1
  {
    hide Tally, Pruned;
    PruneStep(j.jobs, id, IndexOf(j.jobs, candidate));
    var jobs := Pruned(j.jobs, candidate, id);
    WorksSplit(jobs);
    assert JobsSound(jobs);
    if Room(j) >= 1 { AuditKeeps(j.(jobs := jobs), JobPruned, Some(candidate)); }
  }

  lemma RemovalKeeps(e: Engine, t: nat)
    requires Inv(e)
    ensures Keeps(e, AcknowledgeRemoval(e, t))
  {
    hide Tally, Pruned, Audit, JobsSound, Contiguous, MaintenanceSound, Reserved, Committed, Room, Ordered, Removals,
      Last;
    if t < |e.tasks| && e.tasks[t].Removing? {
      var id, next := e.tasks[t].id, AcknowledgeRemoval(e, t);
      RemovedKeeps(e.journal, id, e.tasks[t].candidate);
      if Room(e.journal) >= 1 {
        RemovalsShrink(e, next, Tally(Others(id), e.journal.jobs), Tally(Others(id), next.journal.jobs));
      }
    }
  }

  lemma SettledKeeps(j: Journal, id: nat)
    requires Sound(j) && TaskSound(j, Pruning(id))
    ensures IndexOf(j.jobs, id) < |j.jobs| && j.jobs[IndexOf(j.jobs, id)].state == Succeeded
    ensures
      var r := j.(jobs := Held(j.jobs, id));
      && Sound(r) && Room(r) == Room(j)
      && Tally(Works, r.jobs) == 0 == Tally(Waits, r.jobs) && Tally(Runs, r.jobs) == 0
  {
    hide Tally, Held;
    HeldKeeps(j.jobs, id);
    var jobs := Held(j.jobs, id);
    WorksSplit(jobs);
    RetainedSplit(j.jobs, id);
    RetainedSplit(jobs, id);
    assert Last(j.(jobs := jobs)) == Last(j);
    assert JobsSound(jobs);
  }

  lemma SettleKeeps(e: Engine, t: nat)
    requires Inv(e)
    ensures Keeps(e, Settle(e, t))
  {
    hide Tally, Held, JobsSound, Contiguous, MaintenanceSound, Reserved, Room, Recoverable, Ordered, Committed;
    if t < |e.tasks| && (e.tasks[t].Pruning? || e.tasks[t].Removing?) {
      SettledKeeps(e.journal, e.tasks[t].id);
    }
  }

  // ---------- Controls ----------

  /** An accepted update takes one place and changes the configuration alone. */
  lemma UpdateTakes(e: Engine, expected: nat, enabled: bool, hours: nat, retention: nat)
    requires Inv(e)
    ensures
      var j, next := e.journal, Update(e, expected, enabled, hours, retention);
      next == e ||
        (&& Inv(next) && next == e.(journal := next.journal) && Late(next.journal) == Late(j)
         && next.journal == j.(configuration := next.journal.configuration, events := next.journal.events)
         && Room(next.journal) == Room(j) - 1 && Last(next.journal) == Last(j) + 1
         && (e.executing || AnyActive(j) ==> Room(j) >= e.jobEvents))
  {
    hide Tally;
    var next := Update(e, expected, enabled, hours, retention);
    WorksSplit(e.journal.jobs);
    if next != e {
      AuditKeeps(e.journal.(configuration := next.journal.configuration), ConfigurationUpdated, None);
    }
  }

  lemma UpdateKeeps(e: Engine, expected: nat, enabled: bool, hours: nat, retention: nat)
    requires Inv(e)
    ensures Keeps(e, Update(e, expected, enabled, hours, retention))
  {
    hide Tally, Update, Room, Last, Removals, Recoverable, Contiguous, MaintenanceSound, Reserved, OffHostSound,
      TaskSound;
    var j, next := e.journal, Update(e, expected, enabled, hours, retention);
    UpdateTakes(e, expected, enabled, hours, retention);
    WorksSplit(j.jobs);
    if next != e && (e.executing || AnyActive(j)) {
      RemovalsShrink(next, next, Tally(Retains, j.jobs), Tally(Retains, j.jobs));
      if |e.tasks| == 1 && (e.tasks[0].Pruning? || e.tasks[0].Removing?) {
        var id := e.tasks[0].id;
        RetainedSplit(j.jobs, id);
        RemovalsShrink(next, next, Tally(Others(id), j.jobs), Tally(Others(id), j.jobs));
      }
      UpdateRisk(e, next);
    }
  }

  /** An update beside a waiting job needs numbers, so the job was not at risk before. */
  lemma UpdateRisk(e: Engine, next: Engine)
    requires next.journal.jobs == e.journal.jobs && Late(next.journal) == Late(e.journal)
    requires next.jobEvents == e.jobEvents <= Room(e.journal)
    ensures !AtRisk(e) ==> !AtRisk(next) && !Tight(next)
  {
    hide Tally;
  }

  /** Acknowledging a prefix is dropping it. */
  lemma {:induction false} AfterIs(events: seq<Event>, first: nat, n: nat)
    requires forall i :: 0 <= i < |events| ==> events[i].sequence == first + i
    requires first <= n + 1 <= first + |events|
    ensures After(events, n) == events[n + 1 - first..]
  {
    if events != [] {
      if events[0].sequence > n {
        AfterAll(events, n);
        assert events[0..] == events;
      } else {
        AfterIs(events[1..], first + 1, n);
      }
    }
  }

  lemma {:induction false} AfterAll(events: seq<Event>, n: nat)
    requires forall i :: 0 <= i < |events| ==> events[i].sequence > n
    ensures After(events, n) == events
  {
    if events != [] { AfterAll(events[1..], n); }
  }

  lemma AcknowledgedKeeps(j: Journal, n: nat)
    requires Sound(j) && j.acknowledged < n <= Last(j)
    ensures
      var r := j.(acknowledged := n, events := After(j.events, n));
      Sound(r) && Last(r) == Last(j) && Room(r) >= Room(j) && Late(r) == Late(j)
  {
    hide Tally, After, JobsSound;
    AfterIs(j.events, j.acknowledged + 1, n);
  }

  lemma AcknowledgeKeeps(e: Engine, n: nat)
    requires Inv(e)
    ensures Keeps(e, Acknowledge(e, n))
    ensures Last(Acknowledge(e, n).journal) == Last(e.journal) && Room(Acknowledge(e, n).journal) >= Room(e.journal)
  {
    hide Tally, After, Sound, Room, Last, Holds, Ordered;
    if Acknowledge(e, n) != e { AcknowledgedKeeps(e.journal, n); }
  }

  // ---------- Maintenance ----------

  lemma RequestKeeps(e: Engine, target: nat, restore: bool)
    requires Inv(e)
    ensures Keeps(e, RequestMaintenance(e, target, restore))
  {
    hide Tally;
    var next := RequestMaintenance(e, target, restore);
    WorksSplit(e.journal.jobs);
    if next != e {
      var kind := if restore then RestoreRequested else DeleteRequested;
      AuditKeeps(e.journal.(maintenance := next.journal.maintenance), kind, Some(target));
    }
  }

  lemma RunMaintenanceKeeps(e: Engine)
    requires Inv(e)
    ensures Keeps(e, RunMaintenance(e))
  {
    hide Tally;
    var next := RunMaintenance(e);
    WorksSplit(e.journal.jobs);
    if next != e {
      var draft := e.journal.(maintenance := next.journal.maintenance);
      assert Room(draft) == Room(e.journal);
      if draft.maintenance.value.restore { AuditKeeps(draft, RestoreStarted, Some(draft.maintenance.value.target)); }
    }
  }

  lemma ProgressKeeps(e: Engine, t: nat, phase: Phase, percent: nat)
    requires Inv(e)
    ensures Keeps(e, Progress(e, t, phase, percent))
  {
    hide Tally;
    WorksSplit(e.journal.jobs);
    assert Last(Progress(e, t, phase, percent).journal) == Last(e.journal);
  }

  lemma WithoutKeeps(jobs: seq<Job>, id: nat)
    requires JobsSound(jobs)
    ensures JobsSound(Without(jobs, id)) && Tally(Works, Without(jobs, id)) <= Tally(Works, jobs)
  {
    hide Tally;
    var k := IndexOf(jobs, id);
    if k < |jobs| {
      TallyAt(Retains, jobs, k, jobs[k]);
      TallyAt(Works, jobs, k, jobs[k]);
      var next := Without(jobs, id);
      assert forall i :: 0 <= i < |next| ==> next[i] == if i < k then jobs[i] else jobs[i + 1];
    }
  }

  lemma EndedKeeps(j: Journal, ok: bool)
    requires Sound(j) && TaskSound(j, Maintaining)
    ensures
      var r := Ended(j, j.maintenance.value, ok);
      && r.Some? && Sound(r.value) && !MaintenanceActive(r.value)
      && r.value.configuration == j.configuration
      && Tally(Works, r.value.jobs) == 0 == Tally(Waits, r.value.jobs) && Tally(Runs, r.value.jobs) == 0
  {
    hide Tally, Without;
    var m := j.maintenance.value;
    var r := Ended(j, m, ok).value;
    WithoutKeeps(j.jobs, m.target);
    WorksSplit(r.jobs);
    AuditKeeps(j.(maintenance := r.maintenance), r.events[|j.events|].kind, Listed(j.jobs, m.target));
  }

  lemma FinishKeeps(e: Engine, t: nat, ok: bool)
    requires Inv(e)
    ensures Keeps(e, FinishMaintenance(e, t, ok))
  {
    hide Tally, Ended, JobsSound, Contiguous, MaintenanceSound, Reserved, Room, Recoverable, Ordered, Committed;
    if t < |e.tasks| && e.tasks[t] == Maintaining {
      EndedKeeps(e.journal, ok);
    }
  }

  lemma BeginRecoveryKeeps(e: Engine)
    requires Inv(e)
    ensures Keeps(e, BeginRecovery(e))
  {
    hide Tally, JobsSound, Contiguous, MaintenanceSound, Reserved, Room, Ordered, Committed;
  }

  lemma RecoveredKeeps(j: Journal, m: Maintenance)
    requires Sound(j) && Recoverable(j)
    requires m == j.maintenance.value.(state := Succeeded, phase := Finished, percent := 100)
    ensures Room(j.(maintenance := Some(m))) == Room(j)
    ensures Room(j) >= 1 ==>
      var r := Audit(j.(maintenance := Some(m)), RestoreSucceeded, Listed(j.jobs, m.target)).value;
      && Sound(r) && r == j.(maintenance := Some(m), events := r.events)
      && Room(r) == Room(j) - 1 && !Recoverable(r) && !MaintenanceActive(r)
  {
    hide Tally;
    if Room(j) >= 1 { AuditKeeps(j.(maintenance := Some(m)), RestoreSucceeded, Listed(j.jobs, m.target)); }
  }

  lemma EndRecoveryKeeps(e: Engine, t: nat, ok: bool)
    requires Inv(e)
    ensures Keeps(e, EndRecovery(e, t, ok))
  {
    hide Tally, JobsSound, Contiguous, MaintenanceSound, Reserved, Room, Ordered, Committed;
    if t < |e.tasks| && e.tasks[t] == Recovering {
      RecoveredKeeps(e.journal, e.journal.maintenance.value.(state := Succeeded, phase := Finished, percent := 100));
    }
  }

  // ---------- Downloads and the remote store ----------

  lemma ChangeKeeps(e: Engine)
    requires Inv(e)
    ensures Keeps(e, AskChange(e)) && Keeps(e, AllowChange(e)) && Keeps(e, ChangeStore(e))
  {
    hide Tally, Room, Sound, Ordered, TaskSound, Funded;
    FundedSame(e, AskChange(e));
    FundedSame(e, AllowChange(e));
    FundedSame(e, ChangeStore(e));
  }

  lemma DownloadKeeps(e: Engine)
    requires Inv(e)
    ensures Keeps(e, AcquireDownload(e)) && Keeps(e, ReleaseDownload(e))
  {
    hide Tally, Room, Sound, Ordered, TaskSound, Funded;
    FundedSame(e, AcquireDownload(e));
    FundedSame(e, ReleaseDownload(e));
  }

  lemma ReconcileKeeps(e: Engine, ok: bool, took: bool)
    requires Inv(e)
    ensures Keeps(e, StartReconcile(e)) && Keeps(e, EndReconcile(e, ok, took))
  {
    hide Tally, Room, Sound, Ordered, TaskSound, Funded;
    FundedSame(e, StartReconcile(e));
    FundedSame(e, EndReconcile(e, ok, took));
  }

  lemma RecordKeeps(e: Engine)
    requires Inv(e)
    ensures Keeps(e, RecordChange(e))
  {
    hide Tally;
    WorksSplit(e.journal.jobs);
    if e.pending && !e.recorded { AuditKeeps(e.journal, OffHostUpdated, None); }
  }

  // ---------- Restart ----------

  lemma BootMaintenanceKeeps(j: Journal, restored: bool)
    requires Sound(j)
    ensures
      var r := BootMaintenance(j, restored);
      && r.Some? && Sound(r.value) && r.value.jobs == j.jobs
      && (!MaintenanceActive(j) ==> r.value == j) && r.value.configuration == j.configuration
      && (r.value.maintenance.None? || r.value.maintenance.value.state != Running)
  {
    hide Tally;
    WorksSplit(j.jobs);
    if j.maintenance.Some? && j.maintenance.value.state == Running && j.maintenance.value.restore {
      var done :=
        if restored then j.maintenance.value.(state := Succeeded, phase := Finished, percent := 100)
        else j.maintenance.value.(state := Interrupted);
      var kind := if restored then RestoreSucceeded else RestoreInterrupted;
      AuditKeeps(j.(maintenance := Some(done)), kind, Listed(j.jobs, done.target));
    }
  }

  lemma BootJobKeeps(j: Journal)
    requires Sound(j)
    ensures
      var r := BootJob(j);
      && r.Some? && Sound(r.value) && Tally(Runs, r.value.jobs) == 0
      && r.value == j.(jobs := r.value.jobs, events := r.value.events)
      && (Tally(Works, j.jobs) == 0 ==> r.value == j)
      && Tally(Works, r.value.jobs) <= Tally(Works, j.jobs)
      && (Tally(Waits, j.jobs) > 0 ==> r.value == j)
      && (Tally(Waits, j.jobs) == 0 ==> Tally(Waits, r.value.jobs) == 0)
  {
    hide Tally;
    WorksSplit(j.jobs);
    NoFirst(Runs, j.jobs);
    var k := First(Runs, j.jobs);
    if k < |j.jobs| {
      Replaced(j.jobs, k, j.jobs[k].(state := Interrupted));
      AuditKeeps(j.(jobs := j.jobs[k := j.jobs[k].(state := Interrupted)]), JobInterrupted, Some(j.jobs[k].id));
    }
  }

  lemma RestartKeeps(e: Engine, restored: bool)
    requires Inv(e)
    ensures Keeps(e, Restart(e, restored))
  {
    hide Tally, BootMaintenance, BootJob;
    BootMaintenanceKeeps(e.journal, restored);
    BootJobKeeps(BootMaintenance(e.journal, restored).value);
    WorksSplit(Restart(e, restored).journal.jobs);
    WorksSplit(e.journal.jobs);
  }

  lemma TickKeeps(e: Engine, elapsed: nat)
    requires Inv(e)
    ensures Keeps(e, e.(clock := e.clock + elapsed))
  {
    hide Sound, TaskSound, Room, Tally, Funded;
    FundedSame(e, e.(clock := e.clock + elapsed));
  }
}
