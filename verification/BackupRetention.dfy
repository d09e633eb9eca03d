/** Retention after a successful backup: the plan, the loop that carries it out beside
    control operations, and what it may remove. */
module BackupRetention {
  import opened Durability
  import opened BackupJournal

  datatype Planned = Invalid | Enough | Removal(candidate: Job, replacement: Job)

  /** The last retained job whose remote copy was verified. */
  function LastRemote(jobs: seq<Job>): Option<nat> {
    if jobs == [] then None
    else
      var last := jobs[|jobs| - 1];
      if last.state == Succeeded && last.retained && last.remote == Uploaded then Some(last.id)
      else LastRemote(jobs[..|jobs| - 1])
  }

  /** What an upload outage protects beside the replacement. */
  function Pinned(jobs: seq<Job>, replacement: Job): Option<nat> {
    if replacement.remote == UploadFailed then LastRemote(jobs) else None
  }

  function Keep(retention: nat, pin: Option<nat>): nat {
    var least := if pin.Some? then 2 else 1;
    if retention > least then retention else least
  }

  /** `planPruning` over the committed state. */
  function Plan(jobs: seq<Job>, id: nat, retention: nat): Planned {
    var r := IndexOf(jobs, id);
    if r == |jobs| || jobs[r].state != Succeeded then Invalid
    else
      var pin := Pinned(jobs, jobs[r]);
      if Tally(Kept(id), jobs) <= Keep(retention, pin) then Enough
      else
        var c := First(Expendable(id, pin), jobs);
        if c == |jobs| then Enough else Removal(jobs[c], jobs[r])
  }

  /** The jobs after a removal is acknowledged. */
  function Pruned(jobs: seq<Job>, candidate: nat, id: nat): seq<Job> {
    var c := IndexOf(jobs, candidate);
    if c == |jobs| then jobs else Held(jobs[c := jobs[c].(retained := false)], id)
  }

  /** `replacement.retained` recomputed: held unless 50 others are. */
  function Held(jobs: seq<Job>, id: nat): seq<Job> {
    var r := IndexOf(jobs, id);
    if r == |jobs| then jobs else jobs[r := jobs[r].(retained := Tally(Others(id), jobs) < RETAINED_LIMIT)]
  }

  // ---------- Counting ----------

  lemma IndexOfDistinct(jobs: seq<Job>, i: nat)
    requires DistinctIds(jobs) && i < |jobs|
    ensures IndexOf(jobs, jobs[i].id) == i
  {
    var k := IndexOf(jobs, jobs[i].id);
    assert k <= i;
  }

  /** The pool is the expendable jobs, the replacement and the pinned job. */
  lemma {:induction false} PoolCount(jobs: seq<Job>, id: nat, pin: Option<nat>)
    requires DistinctIds(jobs)
    ensures Tally(Kept(id), jobs) <= Tally(Expendable(id, pin), jobs) + (if pin.Some? then 2 else 1)
    ensures (forall job :: job in jobs ==> job.id != id) ==>
              Tally(Kept(id), jobs) <= Tally(Expendable(id, pin), jobs) + (if pin.Some? then 1 else 0)
    ensures (forall job :: job in jobs ==> pin != Some(job.id)) ==>
              Tally(Kept(id), jobs) <= Tally(Expendable(id, pin), jobs) + 1
    ensures (forall job :: job in jobs ==> job.id != id && pin != Some(job.id)) ==>
              Tally(Kept(id), jobs) <= Tally(Expendable(id, pin), jobs)
  {
    if jobs != [] {
      PoolCount(jobs[1..], id, pin);
      assert forall job :: job in jobs[1..] ==> job.id != jobs[0].id;
      assert forall job :: job in jobs <==> job == jobs[0] || job in jobs[1..];
    }
  }

  /** Without a concurrent change the plan ends exactly when the pool is down to what is kept. */
  lemma PlanStops(jobs: seq<Job>, id: nat, retention: nat)
    requires DistinctIds(jobs) && IndexOf(jobs, id) < |jobs| && jobs[IndexOf(jobs, id)].state == Succeeded
    ensures Plan(jobs, id, retention) == Enough <==>
              Tally(Kept(id), jobs) <= Keep(retention, Pinned(jobs, jobs[IndexOf(jobs, id)]))
    ensures Plan(jobs, id, retention) != Invalid
  {
    var pin := Pinned(jobs, jobs[IndexOf(jobs, id)]);
    var m := Expendable(id, pin);
    PoolCount(jobs, id, pin);
    if First(m, jobs) == |jobs| {
      assert forall job :: job in jobs ==> !Is(m, job);
      TallyNone(m, jobs);
    }
  }

  lemma {:induction false} LastRemoteIs(jobs: seq<Job>)
    ensures LastRemote(jobs).Some? ==>
      exists i :: 0 <= i < |jobs| && jobs[i].state == Succeeded && jobs[i].retained &&
                  jobs[i].remote == Uploaded && LastRemote(jobs) == Some(jobs[i].id)
  {
    if jobs != [] {
      var less := jobs[..|jobs| - 1];
      LastRemoteIs(less);
      if LastRemote(jobs) == LastRemote(less) && LastRemote(less).Some? {
        var i :| 0 <= i < |less| && less[i].state == Succeeded && less[i].retained &&
                  less[i].remote == Uploaded && LastRemote(less) == Some(less[i].id);
        assert jobs[i] == less[i];
      }
    }
  }

  /** The pinned job stays the pinned job when another is released. */
  lemma {:induction false} LastRemoteStays(jobs: seq<Job>, i: nat, retained: bool)
    requires DistinctIds(jobs) && i < |jobs|
    requires jobs[i].remote == Uploaded ==> !retained && LastRemote(jobs) != Some(jobs[i].id)
    ensures LastRemote(jobs[i := jobs[i].(retained := retained)]) == LastRemote(jobs)
  {
    var next := jobs[i := jobs[i].(retained := retained)];
    var n := |jobs| - 1;
    if i < n {
      var last := jobs[n];
      assert next[n] == last && next[..n] == jobs[..n][i := jobs[..n][i].(retained := retained)];
      if !(last.state == Succeeded && last.retained && last.remote == Uploaded) {
        LastRemoteStays(jobs[..n], i, retained);
      }
    } else {
      assert next[..n] == jobs[..n];
    }
  }

  // ---------- One acknowledged removal ----------

  ghost predicate Committed(jobs: seq<Job>, id: nat) {
    && DistinctIds(jobs)
    && (exists i :: 0 <= i < |jobs| && jobs[i].id == id && jobs[i].state == Succeeded)
  }

  /** What a planned removal is: a retained success that is neither the replacement nor pinned. */
  lemma PlanIsSafe(jobs: seq<Job>, id: nat, retention: nat)
    requires Committed(jobs, id) && Plan(jobs, id, retention).Removal?
    ensures
      var p := Plan(jobs, id, retention);
      && p.candidate in jobs && p.candidate.state == Succeeded && p.candidate.retained
      && p.candidate.id != id && Pinned(jobs, p.replacement) != Some(p.candidate.id)
      && p.replacement in jobs && p.replacement.id == id && p.replacement.state == Succeeded
  {
  }

  // ---------- What a plan is, said in its own terms ----------

  /** A retained success whose remote copy was verified, and none after it. */
  ghost predicate LastCopy(jobs: seq<Job>, i: int) {
    && 0 <= i < |jobs| && jobs[i].state == Succeeded && jobs[i].retained && jobs[i].remote == Uploaded
    && forall k :: i < k < |jobs| ==> !(jobs[k].state == Succeeded && jobs[k].retained && jobs[k].remote == Uploaded)
  }

  /** After a failed upload of the replacement the last verified copy is protected. */
  ghost predicate Protected(jobs: seq<Job>, id: nat, i: int) {
    LastCopy(jobs, i) && exists r :: 0 <= r < |jobs| && jobs[r].id == id && jobs[r].remote == UploadFailed
  }

  /** The places that count against the retention count. */
  ghost function Pool(jobs: seq<Job>, id: nat): set<int> {
    set i | 0 <= i < |jobs| && jobs[i].state == Succeeded && (jobs[i].retained || jobs[i].id == id)
  }

  lemma {:induction false} LastRemoteIsLastCopy(jobs: seq<Job>)
    ensures LastRemote(jobs).Some? <==> exists i :: LastCopy(jobs, i)
    ensures forall i :: LastCopy(jobs, i) ==> LastRemote(jobs) == Some(jobs[i].id)
  {
    if jobs != [] {
      var n := |jobs| - 1;
      var less, last := jobs[..n], jobs[n];
      LastRemoteIsLastCopy(less);
      if last.state == Succeeded && last.retained && last.remote == Uploaded {
        assert LastCopy(jobs, n);
      } else {
        assert forall i :: LastCopy(less, i) <==> LastCopy(jobs, i);
      }
    }
  }

  /** The pinned job is exactly the protected one. */
  lemma PinIsProtected(jobs: seq<Job>, id: nat)
    requires Committed(jobs, id)
    ensures Pin(jobs, id).Some? <==> exists i :: Protected(jobs, id, i)
    ensures forall i :: Protected(jobs, id, i) ==> Pin(jobs, id) == Some(jobs[i].id)
  {
    hide LastRemote, LastCopy;
    LastRemoteIsLastCopy(jobs);
    var r := IndexOf(jobs, id);
    forall k | 0 <= k < |jobs| && jobs[k].id == id ensures k == r { IndexOfDistinct(jobs, k); }
    if LastRemote(jobs).Some? {
      var i :| LastCopy(jobs, i);
      assert jobs[r].remote == UploadFailed ==> Protected(jobs, id, i);
    }
  }

  lemma {:induction false} PoolIsTally(jobs: seq<Job>, id: nat)
    ensures |Pool(jobs, id)| == Tally(Kept(id), jobs)
  {
    if jobs != [] {
      var n := |jobs| - 1;
      var less := jobs[..n];
      PoolIsTally(less, id);
      assert jobs == less + [jobs[n]];
      TallySplit(Kept(id), less, [jobs[n]]);
      assert Pool(jobs, id) == Pool(less, id) + if Is(Kept(id), jobs[n]) then {n} else {};
    }
  }

  lemma KeepIs(retention: nat, pin: Option<nat>, n: nat)
    ensures n <= Keep(retention, pin) <==> n <= retention || n <= if pin.Some? then 2 else 1
  {
  }

  /** The whole plan: nothing is removed exactly if the pool is down to the retention count, of at
      least one, or of two beside a protected copy; otherwise the earliest retained success goes
      that is neither the replacement nor protected. */
  lemma PlanIs(jobs: seq<Job>, id: nat, retention: nat)
    requires Committed(jobs, id)
    ensures
      var p := Plan(jobs, id, retention);
      var least := if exists i :: Protected(jobs, id, i) then 2 else 1;
      && p != Invalid
      && (p == Enough <==> |Pool(jobs, id)| <= retention || |Pool(jobs, id)| <= least)
      && (p.Removal? ==>
            && p.replacement in jobs && p.replacement.id == id
            && exists c :: 0 <= c < |jobs| && p.candidate == jobs[c] && Goes(jobs, id, c) &&
                           forall k :: 0 <= k < c ==> !Goes(jobs, id, k))
  {
    hide Tally, LastRemote, Protected, Pinned;
    PoolIsTally(jobs, id);
    PinIsProtected(jobs, id);
    PlanStops(jobs, id, retention);
    var p := Plan(jobs, id, retention);
    if p.Removal? {
      var c := First(Expendable(id, Pin(jobs, id)), jobs);
      assert p.candidate == jobs[c];
      forall k | 0 <= k <= c ensures Goes(jobs, id, k) <==> Is(Expendable(id, Pin(jobs, id)), jobs[k]) {
        GoesIsExpendable(jobs, id, k);
      }
    }
  }

  /** A retained success that is neither the replacement nor protected. */
  ghost predicate Goes(jobs: seq<Job>, id: nat, k: int) {
    0 <= k < |jobs| && jobs[k].state == Succeeded && jobs[k].retained && jobs[k].id != id && !Protected(jobs, id, k)
  }

  lemma GoesIsExpendable(jobs: seq<Job>, id: nat, k: nat)
    requires Committed(jobs, id) && k < |jobs|
    ensures Goes(jobs, id, k) <==> Is(Expendable(id, Pin(jobs, id)), jobs[k])
  {
    hide LastRemote, Pinned, LastCopy;
    PinIsProtected(jobs, id);
    if Pin(jobs, id) == Some(jobs[k].id) {
      var i :| Protected(jobs, id, i);
      assert 0 <= i < |jobs| by { ProtectedIsListed(jobs, id, i); }
      assert i == k;
    }
  }

  lemma ProtectedIsListed(jobs: seq<Job>, id: nat, i: int)
    requires Protected(jobs, id, i)
    ensures 0 <= i < |jobs|
  {
  }

  lemma HeldKeeps(jobs: seq<Job>, id: nat)
    requires Committed(jobs, id)
    ensures
      var next := Held(jobs, id);
      && |next| == |jobs| && Committed(next, id) && IndexOf(next, id) == IndexOf(jobs, id) < |jobs|
      && (forall i :: 0 <= i < |jobs| ==> next[i] == jobs[i].(retained := next[i].retained))
      && (forall i :: 0 <= i < |jobs| && jobs[i].id != id ==> next[i] == jobs[i])
      && Tally(Kept(id), next) == Tally(Kept(id), jobs)
      && Tally(Others(id), next) == Tally(Others(id), jobs)
      && Tally(Works, next) == Tally(Works, jobs)
      && next[IndexOf(jobs, id)].retained == (Tally(Others(id), jobs) < RETAINED_LIMIT)
  {
    var r := IndexOf(jobs, id);
    var job := jobs[r].(retained := Tally(Others(id), jobs) < RETAINED_LIMIT);
    TallyAt(Kept(id), jobs, r, job);
    TallyAt(Others(id), jobs, r, job);
    TallyAt(Works, jobs, r, job);
    IndexOfDistinct(Held(jobs, id), r);
    assert Held(jobs, id)[r].id == id;
  }

  /** The retained jobs are the others and, if it is retained, the replacement. */
  lemma {:induction false} RetainedSplit(jobs: seq<Job>, id: nat)
    requires DistinctIds(jobs)
    ensures
      var r := IndexOf(jobs, id);
      Tally(Retains, jobs) == Tally(Others(id), jobs) + (if r < |jobs| && jobs[r].retained then 1 else 0)
  {
    if jobs != [] {
      RetainedSplit(jobs[1..], id);
      assert IndexOf(jobs, id) > 0 ==> jobs[IndexOf(jobs, id)..] == jobs[1..][IndexOf(jobs, id) - 1..];
    }
  }

  ghost predicate SameButRetained(jobs: seq<Job>, next: seq<Job>) {
    && |next| == |jobs|
    && (forall i :: 0 <= i < |jobs| ==> next[i] == jobs[i].(retained := next[i].retained))
  }

  /** Releasing one other retained success. */
  lemma ReleaseStep(jobs: seq<Job>, id: nat, c: nat)
    requires Committed(jobs, id) && c < |jobs| && jobs[c].id != id && jobs[c].state == Succeeded && jobs[c].retained
    ensures
      var next := jobs[c := jobs[c].(retained := false)];
      && Committed(next, id) && SameButRetained(jobs, next)
      && IndexOf(next, id) == IndexOf(jobs, id) < |jobs| && next[IndexOf(jobs, id)] == jobs[IndexOf(jobs, id)]
      && Tally(Kept(id), next) == Tally(Kept(id), jobs) - 1
      && Tally(Others(id), next) == Tally(Others(id), jobs) - 1
      && Tally(Works, next) == Tally(Works, jobs)
  {
    var released := jobs[c].(retained := false);
    var r := IndexOf(jobs, id);
    TallyAt(Kept(id), jobs, c, released);
    TallyAt(Others(id), jobs, c, released);
    TallyAt(Works, jobs, c, released);
    assert jobs[c := released][r] == jobs[r];
    IndexOfDistinct(jobs[c := released], r);
  }

  /** An acknowledged removal takes exactly the candidate out of the pool and retains the
      replacement. */
  lemma PruneStep(jobs: seq<Job>, id: nat, c: nat)
    requires Committed(jobs, id) && Tally(Retains, jobs) <= RETAINED_LIMIT
    requires c < |jobs| && jobs[c].id != id && jobs[c].state == Succeeded && jobs[c].retained
    ensures
      var next := Pruned(jobs, jobs[c].id, id);
      && Committed(next, id) && SameButRetained(jobs, next)
      && (forall i :: 0 <= i < |jobs| && i != c && jobs[i].id != id ==> next[i] == jobs[i])
      && IndexOf(next, id) == IndexOf(jobs, id) < |jobs| && next[IndexOf(jobs, id)].retained
      && !next[c].retained
      && Tally(Kept(id), next) == Tally(Kept(id), jobs) - 1
      && Tally(Others(id), next) == Tally(Others(id), jobs) - 1
      && Tally(Works, next) == Tally(Works, jobs)
      && Tally(Retains, next) <= RETAINED_LIMIT
  {
    hide Tally;
    IndexOfDistinct(jobs, c);
    ReleaseStep(jobs, id, c);
    var between := jobs[c := jobs[c].(retained := false)];
    HeldKeeps(between, id);
    RetainedSplit(jobs, id);
    RetainedSplit(Held(between, id), id);
  }

  /** The pinned job stays pinned. */
  lemma PrunePin(jobs: seq<Job>, id: nat, c: nat)
    requires Committed(jobs, id) && c < |jobs| && jobs[c].id != id && jobs[c].state == Succeeded && jobs[c].retained
    requires Pinned(jobs, jobs[IndexOf(jobs, id)]) != Some(jobs[c].id)
    ensures
      var next := Pruned(jobs, jobs[c].id, id);
      && IndexOf(next, id) == IndexOf(jobs, id) < |jobs|
      && Pinned(next, next[IndexOf(jobs, id)]) == Pinned(jobs, jobs[IndexOf(jobs, id)])
  {
    hide Tally;
    IndexOfDistinct(jobs, c);
    ReleaseStep(jobs, id, c);
    var between, r := jobs[c := jobs[c].(retained := false)], IndexOf(jobs, id);
    HeldKeeps(between, id);
    if jobs[r].remote == UploadFailed {
      LastRemoteStays(jobs, c, false);
      LastRemoteStays(between, r, Held(between, id)[r].retained);
    }
  }

  // ---------- The loop ----------

  /** What was known when a removal was dispatched. */
  datatype Dispatch = Dispatch(candidate: Job, jobs: seq<Job>, retention: nat, verified: Option<Job>, stored: set<nat>)

  /** A removal is justified when the committed state calls for it and another committed success,
      verified just before and still stored, replaces what goes. */
  ghost predicate Justified(d: Dispatch, id: nat) {
    && Committed(d.jobs, id)
    && Plan(d.jobs, id, d.retention).Removal?
    && var p := Plan(d.jobs, id, d.retention);
    && d.candidate == p.candidate && d.candidate.id != id
    && Pinned(d.jobs, p.replacement) != Some(d.candidate.id)
    && d.verified.Some? && d.verified.value.id == id && d.verified.value.artifact == p.replacement.artifact
    && id in d.stored
  }

  /** The jobs while the loop runs: as at its start but for released candidates. */
  ghost predicate Underway(start: seq<Job>, jobs: seq<Job>, id: nat) {
    && Committed(start, id) && Committed(jobs, id) && SameButRetained(start, jobs)
    && Tally(Retains, jobs) <= RETAINED_LIMIT
    && Pin(jobs, id) == Pin(start, id)
  }

  function Pin(jobs: seq<Job>, id: nat): Option<nat> {
    var r := IndexOf(jobs, id);
    if r == |jobs| then None else Pinned(jobs, jobs[r])
  }

  /** A plan over the committed state, with what its removal may rely on and leads to. */
  lemma UnderwayStep(start: seq<Job>, jobs: seq<Job>, id: nat, retention: nat)
    requires Underway(start, jobs, id)
    ensures Plan(jobs, id, retention) != Invalid
    ensures Plan(jobs, id, retention) == Enough <==> Tally(Kept(id), jobs) <= Keep(retention, Pin(jobs, id))
    ensures Plan(jobs, id, retention).Removal? ==>
      var p := Plan(jobs, id, retention);
      && p.candidate.id != id && p.replacement.id == id && Pin(jobs, id) != Some(p.candidate.id)
      && Underway(start, Pruned(jobs, p.candidate.id, id), id)
      && Tally(Others(id), Pruned(jobs, p.candidate.id, id)) == Tally(Others(id), jobs) - 1
      && (forall v: Job, stored: set<nat> :: v.id == id && v.artifact == p.replacement.artifact && id in stored ==>
            Justified(Dispatch(p.candidate, jobs, retention, Some(v), stored), id))
  {
    hide Tally, Pruned, LastRemote;
    PlanStops(jobs, id, retention);
    var p := Plan(jobs, id, retention);
    if p.Removal? {
      var c := First(Expendable(id, Pin(jobs, id)), jobs);
      PlanIsSafe(jobs, id, retention);
      PruneStep(jobs, id, c);
      PrunePin(jobs, id, c);
    }
  }

  datatype End = Exhausted | VerificationFailed | RemovalFailed | PlanChanged | NotRecorded

  class Retention {
    var jobs: seq<Job>
    var retention: nat
    var stored: set<nat>
    ghost var dispatches: seq<Dispatch>
    /** Failed verifications, removals and writes, and changes of the retention count. */
    ghost var disturbances: nat

    constructor (jobs: seq<Job>, retention: nat, stored: set<nat>)
      ensures this.jobs == jobs && this.retention == retention && this.stored == stored && dispatches == []
    {
      this.jobs, this.retention, this.stored, dispatches, disturbances := jobs, retention, stored, [], 0;
    }

    /** Configuration updates may commit whenever the loop waits; other work is excluded
        while the engine is executing. */
    method Controls()
      modifies this`retention, this`disturbances
      ensures old(disturbances) <= disturbances
      ensures disturbances == old(disturbances) ==> retention == old(retention)
    {
      var changed: nat := *;
      if changed != retention { disturbances := disturbances + 1; }
      retention := changed;
    }

    /** A write of the journal may fail. */
    method Write() returns (ok: bool)
      modifies this`disturbances
      ensures disturbances == old(disturbances) + if ok then 0 else 1
    {
      ok := *;
      if !ok { disturbances := disturbances + 1; }
    }

    /** Verification may fail or throw; when it accepts, the artifact is there. */
    method Verify(job: Job) returns (ok: bool)
      modifies this`disturbances
      ensures ok ==> job.id in stored
      ensures disturbances == old(disturbances) + if ok then 0 else 1
    {
      var accepted := *;
      ok := accepted && job.id in stored;
      if !ok { disturbances := disturbances + 1; }
    }

    /** Removal may fail, and may have removed the artifact even so. */
    method Remove(candidate: Job, ghost id: nat, ghost verified: Job) returns (ok: bool)
      requires Justified(Dispatch(candidate, jobs, retention, Some(verified), stored), id)
      modifies this`stored, this`dispatches, this`disturbances
      ensures disturbances == old(disturbances) + if ok then 0 else 1
      ensures dispatches == old(dispatches) + [Dispatch(candidate, jobs, retention, Some(verified), old(stored))]
      ensures stored == old(stored) || stored == old(stored) - {candidate.id}
      ensures ok ==> stored == old(stored) - {candidate.id}
    {
      ghost var d := Dispatch(candidate, jobs, retention, Some(verified), stored);
      dispatches := dispatches + [d];
      var removed, reported := *, *;
      if removed { stored := stored - {candidate.id}; }
      ok := removed && reported;
      if !ok { disturbances := disturbances + 1; }
    }

    /** One turn of the loop: plan, verify the replacement, plan again, remove, record.  It goes on
        only with one other retained job less. */
    method Turn(id: nat, ghost start: seq<Job>) returns (end: Option<End>)
      requires Underway(start, jobs, id)
      modifies this
      ensures Underway(start, jobs, id)
      ensures |old(dispatches)| <= |dispatches| <= |old(dispatches)| + 1
      ensures dispatches[..|old(dispatches)|] == old(dispatches)
      ensures |old(dispatches)| < |dispatches| ==>
        var d := dispatches[|old(dispatches)|];
        Justified(d, id) && Pin(start, id) != Some(d.candidate.id) && old(Tally(Others(id), jobs)) > 0
      ensures end == None ==>
        |dispatches| == |old(dispatches)| + 1 && Tally(Others(id), jobs) == old(Tally(Others(id), jobs)) - 1
      ensures id in old(stored) ==> id in stored
      ensures Pin(start, id).Some? && Pin(start, id).value in old(stored) ==> Pin(start, id).value in stored
      ensures end == Some(Exhausted) ==> Tally(Kept(id), jobs) <= Keep(retention, Pin(start, id))
      ensures old(disturbances) <= disturbances
      ensures end.Some? && end != Some(Exhausted) ==> old(disturbances) < disturbances
    {
      hide Tally, Pruned, Justified, Plan, Pinned, Keep, Pin;
      assert Pin(jobs, id) == Pin(start, id);
      hide Underway;
      Controls();
      var planned := Plan(jobs, id, retention);
      UnderwayStep(start, jobs, id, retention);
      if planned == Enough { return Some(Exhausted); }
      var ok := Verify(planned.replacement);
      if !ok { return Some(VerificationFailed); }
      Controls();
      var current := Plan(jobs, id, retention);
      UnderwayStep(start, jobs, id, retention);
      if current == Enough || current.candidate.id != planned.candidate.id ||
         current.candidate.artifact != planned.candidate.artifact ||
         current.replacement.artifact != planned.replacement.artifact
      {
        return Some(PlanChanged);
      }
      var removed := Remove(current.candidate, id, planned.replacement);
      if !removed { return Some(RemovalFailed); }
      Controls();
      var written := Write();
      if !written { return Some(NotRecorded); }
      jobs := Pruned(jobs, planned.candidate.id, id);
      end := None;
    }

    /** `prune`: until the plan is empty.  Every removal is justified, the replacement and the last
        verified copy keep their artifacts, and an undisturbed loop ends at the configured count. */
    method Prune(id: nat) returns (end: End)
      requires Committed(jobs, id) && Tally(Retains, jobs) <= RETAINED_LIMIT
      modifies this
      ensures Underway(old(jobs), jobs, id)
      ensures |old(dispatches)| <= |dispatches| && dispatches[..|old(dispatches)|] == old(dispatches)
      ensures forall i :: |old(dispatches)| <= i < |dispatches| ==> Justified(dispatches[i], id)
      ensures |dispatches| - |old(dispatches)| <= old(Tally(Others(id), jobs))
      ensures id in old(stored) ==> id in stored
      ensures Pin(old(jobs), id).Some? && Pin(old(jobs), id).value in old(stored) ==> Pin(old(jobs), id).value in stored
      ensures end == Exhausted ==> Tally(Kept(id), jobs) <= Keep(retention, Pin(old(jobs), id))
      // The last verified copy is never dispatched, and its artifact stays.
      ensures forall d, i :: |old(dispatches)| <= d < |dispatches| && Protected(old(jobs), id, i) ==>
                dispatches[d].candidate.id != old(jobs)[i].id
      ensures forall i :: Protected(old(jobs), id, i) && old(jobs)[i].id in old(stored) ==> old(jobs)[i].id in stored
      // Only a disturbance stops the loop short of the configured count.
      ensures end == Exhausted ==>
        || |Pool(jobs, id)| <= retention
        || |Pool(jobs, id)| <= if exists i :: Protected(old(jobs), id, i) then 2 else 1
      ensures end == Exhausted || old(disturbances) < disturbances
    {
      hide Tally, Pruned, Justified, Plan, Pinned, Keep, Protected;
      PinIsProtected(jobs, id);
      ghost var start, first := jobs, |dispatches|;
      while true
        invariant Underway(start, jobs, id)
        invariant first <= |dispatches| && dispatches[..first] == old(dispatches)
        invariant forall i :: first <= i < |dispatches| ==> Justified(dispatches[i], id)
        invariant forall i :: first <= i < |dispatches| ==> Pin(start, id) != Some(dispatches[i].candidate.id)
        invariant old(disturbances) <= disturbances
        invariant |dispatches| - first + Tally(Others(id), jobs) == Tally(Others(id), start)
        invariant id in old(stored) ==> id in stored
        invariant Pin(start, id).Some? && Pin(start, id).value in old(stored) ==> Pin(start, id).value in stored
        decreases Tally(Others(id), jobs)
      {
        hide Underway, Pin;
        ghost var before := dispatches;
        var turn := Turn(id, start);
        assert forall i :: 0 <= i < |before| ==> dispatches[i] == before[i];
        assert dispatches[..first] == before[..first];
        PoolIsTally(jobs, id);
        KeepIs(retention, Pin(start, id), Tally(Kept(id), jobs));
        if turn.Some? { return turn.value; }
      }
    }
  }
}
