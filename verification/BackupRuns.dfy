/** Whole runs of the backup engine: what always holds, when accepted work may be stranded. */
module BackupRuns {
  import opened Durability
  import opened BackupJournal
  import opened BackupEngine
  import opened BackupSafety

  /** A new store, before its remote outbox has been drained. */
  function NewEngine(clock: nat, jobEvents: nat): Engine {
    Engine(jobEvents, Journal([], [], 0, Configuration(0, false, 24, 7, None), None),
           false, [], false, 0, NoChange, true, false, false, false, clock, [], false, false)
  }

  function Run(e: Engine, actions: seq<Action>): Engine
    decreases actions
  {
    if actions == [] then e else Run(Step(e, actions[0]), actions[1..])
  }

  lemma {:induction false} RunJoins(e: Engine, a: seq<Action>, b: seq<Action>)
    ensures Run(e, a + b) == Run(Run(e, a), b)
    decreases a
  {
    if a == [] {
      assert a + b == b;
    } else {
      assert (a + b)[0] == a[0] && (a + b)[1..] == a[1..] + b;
      RunJoins(Step(e, a[0]), a[1..], b);
    }
  }

  lemma RunTwo(e: Engine, a: Action, b: Action)
    ensures Run(e, [a]) == Step(e, a) && Run(e, [a, b]) == Step(Step(e, a), b)
  {
    hide Step;
    assert [a, b][1..] == [b] && [a][1..] == [] && [b][1..] == [];
    assert Run(Step(e, a), [b]) == Run(Step(Step(e, a), b), []);
  }

  /** A manual request that is accepted while the journal is exposed. */
  predicate Careless(e: Engine, a: Action) {
    a.DoStart? && Admitted(e, a.id, None).Some? && Exposed(e)
  }

  lemma StepKeeps(e: Engine, a: Action)
    requires Inv(e)
    ensures Inv(Step(e, a))
    ensures !Careless(e, a) ==> Keeps(e, Step(e, a))
  {
    hide Keeps, Inv, Start, Admitted, Exposed;
    if a.DoStart? {
      StartIs(e, a.id);
      StartKeeps(e, a.id);
      if !Careless(e, a) { StartServes(e, a.id); }
    } else {
      OtherStepKeeps(e, a);
      KeepsInv(e, Step(e, a));
    }
  }

  lemma StartIs(e: Engine, id: nat)
    ensures Step(e, DoStart(id)) == Start(e, id)
  {
    hide Start, Appends;
  }

  lemma StartServes(e: Engine, id: nat)
    requires Inv(e) && (Admitted(e, id, None).Some? ==> !Exposed(e))
    ensures Keeps(e, Start(e, id))
  {
    hide Inv, Start, Admitted, Exposed, Funded;
    StartKeeps(e, id);
  }

  lemma KeepsInv(e: Engine, next: Engine)
    requires Keeps(e, next)
    ensures Inv(next)
  {
  }

  lemma OtherStepKeeps(e: Engine, a: Action)
    requires Inv(e) && !a.DoStart?
    ensures Keeps(e, Step(e, a))
  {
    hide Keeps, Inv, Start, Launch, Complete, Dispatched, AcknowledgeRemoval, Settle, Update, Acknowledge,
      RequestMaintenance, RunMaintenance, Progress, FinishMaintenance, BeginRecovery, EndRecovery, AcquireDownload,
      ReleaseDownload, AskChange, AllowChange, ChangeStore, StartReconcile, RecordChange, EndReconcile, Restart, Close,
      Appends, Abort;
    match a {
      case Tick(elapsed) => TickKeeps(e, elapsed);
      case DoLaunch(id) => LaunchKeeps(e, id);
      case DoComplete(t, ok, artifact, remote) => CompleteKeeps(e, t, ok, artifact, remote);
      case DoDispatch(t) => DispatchKeeps(e, t);
      case DoAcknowledgeRemoval(t) => RemovalKeeps(e, t);
      case DoSettle(t) => SettleKeeps(e, t);
      case DoAbort(t) => AbortKeeps(e, t);
      case DoUpdate(expected, enabled, hours, retention) => UpdateKeeps(e, expected, enabled, hours, retention);
      case DoAcknowledge(n) => AcknowledgeKeeps(e, n);
      case DoRequestMaintenance(target, restore) => RequestKeeps(e, target, restore);
      case DoRunMaintenance => RunMaintenanceKeeps(e);
      case DoProgress(t, phase, percent) => ProgressKeeps(e, t, phase, percent);
      case DoFinishMaintenance(t, ok) => FinishKeeps(e, t, ok);
      case DoBeginRecovery => BeginRecoveryKeeps(e);
      case DoEndRecovery(t, ok) => EndRecoveryKeeps(e, t, ok);
      case DoAcquireDownload => DownloadKeeps(e);
      case DoReleaseDownload => DownloadKeeps(e);
      case DoAskChange => ChangeKeeps(e);
      case DoAllowChange => ChangeKeeps(e);
      case DoChangeStore => ChangeKeeps(e);
      case DoStartReconcile => ReconcileKeeps(e, false, false);
      case DoRecordChange => RecordKeeps(e);
      case DoEndReconcile(ok, took) => ReconcileKeeps(e, ok, took);
      case DoRestart(restored) => RestartKeeps(e, restored);
    }
  }

  lemma AbortKeeps(e: Engine, t: nat)
    requires Inv(e)
    ensures Keeps(e, Abort(e, t))
  {
    hide Tally, Room, Sound, Ordered, Recoverable, TaskSound;
    assert t < |e.tasks| ==> Close(e, t).tasks == [];
  }

  lemma NewEngineIsSound(clock: nat, jobEvents: nat)
    requires jobEvents >= JOB_EVENTS
    ensures Inv(NewEngine(clock, jobEvents)) && Funded(NewEngine(clock, jobEvents))
  {
  }

  /** In every reachable state the whole invariant holds: bounds, contiguous events, at most one
      operation, increasing slots. */
  lemma {:induction false} RunKeepsInv(e: Engine, actions: seq<Action>)
    requires Inv(e)
    ensures Inv(Run(e, actions))
    decreases actions
  {
    hide Inv, Step;
    if actions != [] {
      StepKeeps(e, actions[0]);
      RunKeepsInv(Step(e, actions[0]), actions[1..]);
    }
  }

  /** What the invariant says of every state a new store can reach. */
  lemma EveryReachableState(clock: nat, jobEvents: nat, actions: seq<Action>)
    requires jobEvents >= JOB_EVENTS
    ensures
      var e := Run(NewEngine(clock, jobEvents), actions);
      var j := e.journal;
      && |j.jobs| <= 100 && Tally(Retains, j.jobs) <= 50 && Tally(Works, j.jobs) <= 1 && DistinctIds(j.jobs)
      && (forall i :: 0 <= i < |j.events| ==> j.events[i].sequence == j.acknowledged + 1 + i)
      && |j.events| <= CAPACITY && Last(j) <= SAFE_INTEGER
      && |e.tasks| + e.downloads + (if e.change == Allowed || e.change == Closing then 1 else 0) <= 1
      && (MaintenanceActive(j) ==> Tally(Works, j.jobs) == 0)
      && (forall i, k :: 0 <= i < k < |e.slots| ==> e.slots[i] < e.slots[k])
      && (Tally(Works, j.jobs) == 0 ==> Trimmed(j.jobs, JOBS_LIMIT - 1).Some?)
  {
    hide Tally, Trimmed, Step, Run, Room, Reserved, OffHostSound, TaskSound;
    NewEngineIsSound(clock, jobEvents);
    RunKeepsInv(NewEngine(clock, jobEvents), actions);
    var j := Run(NewEngine(clock, jobEvents), actions).journal;
    if Tally(Works, j.jobs) == 0 { AdmissionTrims(j.jobs); }
  }

  /** A scheduled admission takes the due slot and moves the next one just beyond now. */
  lemma AdmissionSchedules(e: Engine, id: nat)
    requires Inv(e) && Launch(e, id).slots != e.slots
    ensures
      var c, next := e.journal.configuration, Launch(e, id);
      var interval := Milliseconds(c.hours);
      && c.next.Some? && c.next.value <= e.clock
      && next.slots == e.slots + [c.next.value] && c.next.value !in e.slots
      && next.journal.configuration.next.Some?
      && e.clock < next.journal.configuration.next.value <= e.clock + interval
      && (next.journal.configuration.next.value - c.next.value) % interval == 0
      && |next.tasks| == 1 && next.tasks[0] == Backup(id)
  {
    hide Tally, Admitted, NextRun, First, Room, JobsSound, Contiguous, MaintenanceSound, Reserved, OffHostSound;
    var j := e.journal;
    var due := j.configuration.next.value;
    AdmittedKeeps(e, id, Some(due));
    NextRunIs(due, e.clock, Milliseconds(j.configuration.hours));
  }

  /** No manual request of the run is accepted while the journal is exposed. */
  ghost predicate Careful(e: Engine, actions: seq<Action>)
    decreases actions
  {
    actions == [] || (!Careless(e, actions[0]) && Careful(Step(e, actions[0]), actions[1..]))
  }

  /** Accepted work is never refused one of its own steps, whatever runs beside it. */
  lemma {:induction false} AcceptedWorkCommits(e: Engine, actions: seq<Action>)
    requires Inv(e) && Funded(e) && !e.stranded && Careful(e, actions)
    ensures Funded(Run(e, actions)) && !Run(e, actions).stranded
    decreases actions
  {
    hide Inv, Step, Funded, Careless;
    if actions != [] {
      StepKeeps(e, actions[0]);
      AcceptedWorkCommits(Step(e, actions[0]), actions[1..]);
    }
  }

  /** With one event more in the reservation no run needs care. */
  lemma {:induction false} LargerReservationSuffices(e: Engine, actions: seq<Action>)
    requires Inv(e) && Funded(e) && !e.stranded && e.jobEvents > JOB_EVENTS
    ensures Careful(e, actions) && !Run(e, actions).stranded
    decreases actions
  {
    hide Inv, Step, Funded;
    if actions != [] {
      StepKeeps(e, actions[0]);
      LargerReservationSuffices(Step(e, actions[0]), actions[1..]);
    }
  }

  // ---------- Event numbers ----------

  /** Nothing published is renumbered, rewritten or lost before it is acknowledged. */
  ghost predicate Extends(a: Journal, b: Journal) {
    && a.acknowledged <= b.acknowledged && Last(a) <= Last(b)
    && forall i :: 0 <= i < |a.events| && a.events[i].sequence > b.acknowledged ==> a.events[i] in b.events
  }

  lemma AcknowledgeExtends(j: Journal, n: nat)
    requires Contiguous(j) && j.acknowledged < n <= Last(j)
    ensures Extends(j, j.(acknowledged := n, events := After(j.events, n)))
  {
    hide After;
    AfterIs(j.events, j.acknowledged + 1, n);
    var next := j.(acknowledged := n, events := After(j.events, n));
    assert forall i :: 0 <= i < |j.events| && j.events[i].sequence > n ==>
          j.events[i] == next.events[i - (n - j.acknowledged)];
  }

  lemma StepExtends(e: Engine, a: Action)
    requires Inv(e)
    ensures Extends(e.journal, Step(e, a).journal)
  {
    hide Exclusive, OffHostSound, Ordered, JobsSound, MaintenanceSound, Reserved, Funded;
    StepKeeps(e, a);
    var j, next := e.journal, Step(e, a).journal;
    if a.DoAcknowledge? {
      assert Step(e, a) == Acknowledge(e, a.sequence);
      if next != j { AcknowledgeExtends(j, a.sequence); }
    } else {
      hide Step;
      assert forall i :: 0 <= i < |j.events| ==> next.events[i] == j.events[i];
    }
  }

  lemma {:induction false} RunExtends(e: Engine, actions: seq<Action>)
    requires Inv(e)
    ensures Extends(e.journal, Run(e, actions).journal)
    decreases actions
  {
    hide Inv, Step;
    if actions != [] {
      var next := Step(e, actions[0]);
      StepKeeps(e, actions[0]);
      StepExtends(e, actions[0]);
      RunExtends(next, actions[1..]);
      var j, k, l := e.journal, next.journal, Run(e, actions).journal;
      forall i | 0 <= i < |j.events| && j.events[i].sequence > l.acknowledged ensures j.events[i] in l.events {
        assert j.events[i] in k.events;
      }
    }
  }
}
