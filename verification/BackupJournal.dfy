/** The managed backup journal: jobs, audit events and the operations that `mutate` applies to a
    draft of it.  A draft is a value, as it is in the engine, which clones the state before it
    works on it and commits the result as a whole. */
module BackupJournal {
  import opened Durability

  const CAPACITY := 600
  const RETAINED_LIMIT := 50
  const JOBS_LIMIT := 100

  datatype JobState = Queued | Running | Succeeded | Failed | Interrupted

  datatype Remote = Unreplicated | UploadFailed | Uploaded

  datatype Job = Job(
    id: nat,
    slot: Option<nat>,
    state: JobState,
    artifact: Option<nat>,
    remote: Remote,
    retained: bool)

  predicate Active(job: Job) {
    job.state == Queued || job.state == Running
  }

  // ---------- Counting jobs ----------

  datatype Mark =
    | Retains
    | Works
    | Waits
    | Runs
    | Spare(keep: Option<nat>)
    | Others(id: nat)
    | Kept(id: nat)
    | Expendable(id: nat, pin: Option<nat>)

  /** `Spare(keep)` marks what `trim` may drop: finished, not retained, and not the job `keep`.
      `Kept(id)` marks what counts against the retention count while `id` is the replacement,
      and `Expendable(id, pin)` what of it may be removed. */
  predicate Is(m: Mark, job: Job) {
    match m
    case Retains => job.retained
    case Works => Active(job)
    case Waits => job.state == Queued
    case Runs => job.state == Running
    case Spare(keep) => !Active(job) && !job.retained && keep != Some(job.id)
    case Others(id) => job.retained && job.id != id
    case Kept(id) => job.state == Succeeded && (job.retained || job.id == id)
    case Expendable(id, pin) => job.state == Succeeded && job.retained && job.id != id && pin != Some(job.id)
  }

  function Tally(m: Mark, jobs: seq<Job>): nat {
    if jobs == [] then 0 else (if Is(m, jobs[0]) then 1 else 0) + Tally(m, jobs[1..])
  }

  lemma {:induction false} TallySplit(m: Mark, a: seq<Job>, b: seq<Job>)
    ensures Tally(m, a + b) == Tally(m, a) + Tally(m, b)
    decreases a
  {
    if a == [] {
      assert a + b == b;
    } else {
      assert (a + b)[1..] == a[1..] + b;
      TallySplit(m, a[1..], b);
    }
  }

  lemma {:induction false} TallyAt(m: Mark, jobs: seq<Job>, i: nat, job: Job)
    requires i < |jobs|
    ensures Tally(m, jobs[i := job]) + (if Is(m, jobs[i]) then 1 else 0) ==
            Tally(m, jobs) + (if Is(m, job) then 1 else 0)
    ensures Tally(m, jobs[..i] + jobs[i + 1..]) + (if Is(m, jobs[i]) then 1 else 0) == Tally(m, jobs)
  {
    assert jobs == jobs[..i] + ([jobs[i]] + jobs[i + 1..]);
    assert jobs[i := job] == jobs[..i] + ([job] + jobs[i + 1..]);
    TallySplit(m, jobs[..i], [jobs[i]] + jobs[i + 1..]);
    TallySplit(m, jobs[..i], [job] + jobs[i + 1..]);
    TallySplit(m, jobs[..i], jobs[i + 1..]);
  }

  lemma {:induction false} TallyNone(m: Mark, jobs: seq<Job>)
    ensures Tally(m, jobs) == 0 <==> forall job :: job in jobs ==> !Is(m, job)
    ensures Tally(m, jobs) <= |jobs|
  {
    if jobs != [] {
      TallyNone(m, jobs[1..]);
      assert forall job :: job in jobs <==> job == jobs[0] || job in jobs[1..];
    }
  }

  lemma {:induction false} WorksSplit(jobs: seq<Job>)
    ensures Tally(Works, jobs) == Tally(Waits, jobs) + Tally(Runs, jobs)
  {
    if jobs != [] { WorksSplit(jobs[1..]); }
  }

  /** Every job is spare, works, is retained or is the one to keep. */
  lemma {:induction false} TallyCover(keep: Option<nat>, jobs: seq<Job>)
    requires DistinctIds(jobs)
    ensures |jobs| <= Tally(Spare(keep), jobs) + Tally(Works, jobs) + Tally(Retains, jobs) + 1
    ensures (forall job :: job in jobs ==> keep != Some(job.id)) ==>
              |jobs| <= Tally(Spare(keep), jobs) + Tally(Works, jobs) + Tally(Retains, jobs)
  {
    if jobs != [] {
      TallyCover(keep, jobs[1..]);
      assert forall job :: job in jobs[1..] ==> job.id != jobs[0].id;
    }
  }

  /** The index of the first job with the mark, or the length. */
  function First(m: Mark, jobs: seq<Job>): (i: nat)
    ensures i <= |jobs|
    ensures i < |jobs| ==> Is(m, jobs[i])
    ensures forall k :: 0 <= k < i ==> !Is(m, jobs[k])
  {
    if jobs == [] || Is(m, jobs[0]) then 0 else 1 + First(m, jobs[1..])
  }

  /** The index of the job with this id, or the length. */
  function IndexOf(jobs: seq<Job>, id: nat): (i: nat)
    ensures i <= |jobs|
    ensures i < |jobs| ==> jobs[i].id == id
    ensures forall k :: 0 <= k < i ==> jobs[k].id != id
  {
    if jobs == [] || jobs[0].id == id then 0 else 1 + IndexOf(jobs[1..], id)
  }

  ghost predicate DistinctIds(jobs: seq<Job>) {
    forall i, j :: 0 <= i < j < |jobs| ==> jobs[i].id != jobs[j].id
  }

  // ---------- trim ----------

  /** The last job that succeeded with an artifact. */
  function LatestSuccess(jobs: seq<Job>): Option<nat> {
    if jobs == [] then None
    else
      var last := jobs[|jobs| - 1];
      if last.state == Succeeded && last.artifact.Some? then Some(last.id) else LatestSuccess(jobs[..|jobs| - 1])
  }

  /** The list without its `n` oldest spare jobs, if it has so many. */
  function Dropped(keep: Option<nat>, jobs: seq<Job>, n: nat): Option<seq<Job>> {
    if n == 0 then Some(jobs)
    else if jobs == [] then None
    else if Is(Spare(keep), jobs[0]) then Dropped(keep, jobs[1..], n - 1)
    else
      var rest := Dropped(keep, jobs[1..], n);
      if rest.None? then None else Some([jobs[0]] + rest.value)
  }

  function Trimmed(jobs: seq<Job>, limit: nat): Option<seq<Job>> {
    if |jobs| <= limit then Some(jobs) else Dropped(LatestSuccess(jobs), jobs, |jobs| - limit)
  }

  /** What dropping does: only spare jobs go, and it fails only for want of them. */
  lemma {:induction false} DroppedKeeps(keep: Option<nat>, jobs: seq<Job>, n: nat)
    ensures Dropped(keep, jobs, n).Some? <==> n <= Tally(Spare(keep), jobs)
    ensures Dropped(keep, jobs, n).Some? ==>
      var r := Dropped(keep, jobs, n).value;
      && |r| == |jobs| - n
      && Tally(Retains, r) == Tally(Retains, jobs) && Tally(Works, r) == Tally(Works, jobs)
      && (forall job :: job in r ==> job in jobs)
      && (forall job :: job in jobs && !Is(Spare(keep), job) ==> job in r)
      && (DistinctIds(jobs) ==> DistinctIds(r))
  {
    if n > 0 && jobs != [] {
      var tail := jobs[1..];
      assert forall job :: job in jobs <==> job == jobs[0] || job in tail;
      assert DistinctIds(jobs) ==> DistinctIds(tail);
      if Is(Spare(keep), jobs[0]) {
        DroppedKeeps(keep, tail, n - 1);
      } else {
        DroppedKeeps(keep, tail, n);
        var rest := Dropped(keep, tail, n);
        if rest.Some? && DistinctIds(jobs) {
          var r := [jobs[0]] + rest.value;
          forall i, j | 0 <= i < j < |r| ensures r[i].id != r[j].id {
            assert r[j] == rest.value[j - 1] && r[j] in tail;
            if i > 0 { assert r[i] == rest.value[i - 1]; }
          }
        }
      }
    }
  }

  /** Removing the first spare job is one step of the drop. */
  lemma {:induction false} DropFirst(keep: Option<nat>, jobs: seq<Job>, n: nat, i: nat)
    requires n > 0 && i < |jobs| && Is(Spare(keep), jobs[i])
    requires forall x :: 0 <= x < i ==> !Is(Spare(keep), jobs[x])
    ensures Dropped(keep, jobs, n) == Dropped(keep, jobs[..i] + jobs[i + 1..], n - 1)
    decreases jobs
  {
    var less := jobs[..i] + jobs[i + 1..];
    if i == 0 {
      assert less == jobs[1..];
    } else {
      DropFirst(keep, jobs[1..], n, i - 1);
      assert less == [jobs[0]] + (jobs[1..][..i - 1] + jobs[1..][i..]);
      assert less[1..] == jobs[1..][..i - 1] + jobs[1..][i..];
      if n == 1 { assert jobs[1..][..i - 1] + jobs[1..][i..] == less[1..]; }
    }
  }

  lemma {:induction false} NothingToDrop(keep: Option<nat>, jobs: seq<Job>, n: nat)
    requires n > 0 && forall job :: job in jobs ==> !Is(Spare(keep), job)
    ensures Dropped(keep, jobs, n) == None
  {
    if jobs != [] {
      assert jobs[0] in jobs && forall job :: job in jobs[1..] ==> job in jobs;
      NothingToDrop(keep, jobs[1..], n);
    }
  }

  /** `trim`: while there are too many, splice out the first spare job. */
  method Trim(jobs: seq<Job>, limit: nat) returns (r: Option<seq<Job>>)
    ensures r == Trimmed(jobs, limit)
  {
    var keep := LatestSuccess(jobs);
    var draft := jobs;
    while |draft| > limit
      invariant |draft| <= limit ==> Trimmed(jobs, limit) == Some(draft)
      invariant |draft| > limit ==> Trimmed(jobs, limit) == Dropped(keep, draft, |draft| - limit)
      decreases |draft|
    {
      var i := 0;
      while i < |draft| && !Is(Spare(keep), draft[i])
        invariant i <= |draft| && forall x :: 0 <= x < i ==> !Is(Spare(keep), draft[x])
      {
        i := i + 1;
      }
      if i == |draft| {
        NothingToDrop(keep, draft, |draft| - limit);
        return None;
      }
      DropFirst(keep, draft, |draft| - limit, i);
      draft := draft[..i] + draft[i + 1..];
    }
    r := Some(draft);
  }

  /** In a state within its bounds and with no active job, an admission always finds room:
      at most 50 retained jobs and the latest success are protected.  What goes is neither. */
  lemma {:induction false} AdmissionTrims(jobs: seq<Job>)
    requires DistinctIds(jobs) && |jobs| <= JOBS_LIMIT
    requires Tally(Retains, jobs) <= RETAINED_LIMIT && Tally(Works, jobs) == 0
    ensures
      var r := Trimmed(jobs, JOBS_LIMIT - 1);
      && r.Some? && |r.value| <= JOBS_LIMIT - 1 && DistinctIds(r.value)
      && Tally(Retains, r.value) == Tally(Retains, jobs) && Tally(Works, r.value) == 0
      && (forall job :: job in r.value ==> job in jobs)
      && (forall job :: job in jobs && (job.retained || LatestSuccess(jobs) == Some(job.id)) ==> job in r.value)
  {
    var keep := LatestSuccess(jobs);
    if |jobs| > JOBS_LIMIT - 1 {
      TallyCover(keep, jobs);
      DroppedKeeps(keep, jobs, |jobs| - (JOBS_LIMIT - 1));
    }
  }

  /** The last success with an artifact. */
  ghost predicate LastWithArtifact(jobs: seq<Job>, i: int) {
    && 0 <= i < |jobs| && jobs[i].state == Succeeded && jobs[i].artifact.Some?
    && forall k :: i < k < |jobs| ==> !(jobs[k].state == Succeeded && jobs[k].artifact.Some?)
  }

  lemma {:induction false} LatestSuccessIs(jobs: seq<Job>)
    ensures LatestSuccess(jobs) == None <==> forall i :: !LastWithArtifact(jobs, i)
    ensures forall i :: LastWithArtifact(jobs, i) ==> LatestSuccess(jobs) == Some(jobs[i].id)
  {
    if jobs != [] {
      var n := |jobs| - 1;
      var less, last := jobs[..n], jobs[n];
      LatestSuccessIs(less);
      if last.state == Succeeded && last.artifact.Some? {
        assert LastWithArtifact(jobs, n);
      } else {
        assert forall i :: LastWithArtifact(less, i) <==> LastWithArtifact(jobs, i);
      }
    }
  }

  /** What a trim takes, whatever the list: never an active or retained job, never the last success
      with an artifact, and no more than it must; it fails only if too few others are there. */
  lemma TrimTakes(jobs: seq<Job>, limit: nat)
    requires DistinctIds(jobs)
    ensures
      var r := Trimmed(jobs, limit);
      r.Some? ==>
        && |r.value| == (if |jobs| <= limit then |jobs| else limit)
        && (forall job :: job in r.value ==> job in jobs)
        && (forall i :: 0 <= i < |jobs| && (Active(jobs[i]) || jobs[i].retained || LastWithArtifact(jobs, i)) ==>
              jobs[i] in r.value)
  {
    hide LastWithArtifact;
    LatestSuccessIs(jobs);
    if |jobs| > limit { DroppedKeeps(LatestSuccess(jobs), jobs, |jobs| - limit); }
    forall i | 0 <= i < |jobs| ensures jobs[i] in jobs {}
  }
}
