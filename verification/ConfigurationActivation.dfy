/** Crash-safe activation of a proxy configuration.

    The durable part is three files of one directory: the candidate snapshot, the
    authority line naming its revision, and the activation fence.  The volatile part
    is the engine, the runtime's memory of what it last verified, and the request
    counter.  Every method records in `trail` each state of the directory that a crash
    could interrupt it in, next to the configurations probed successfully by then.

    A configuration stands for its revision: the revision is a digest of the canonical
    configuration, and restoring recomputes it.  `None` is the closed baseline. */
module ConfigurationActivation {
  import opened Durability

  datatype Config = Config(digest: nat)

  /** What the engine is given to load: the rendering of a configuration with the
      certificate material and provider settings of the moment. */
  datatype Json = Json(target: Option<Config>, material: nat)

  datatype Engine = Down | Serving(json: Json)

  datatype Disk = Disk(snapshot: Cell<Option<Config>>, authority: Cell<Option<Config>>, fence: Cell<bool>) {

    predicate WellFormed() {
      snapshot.Valid() && authority.Valid() && fence.Valid()
    }

    function Synced(): (d: Disk)
      ensures d.WellFormed() && Visible(d) == Visible(this)
      ensures forall i :: IsImage(i, d) ==> i == Visible(this)
    {
      Disk(snapshot.Synced(), authority.Synced(), fence.Synced())
    }
  }

  /** What a boot finds after a crash: one content per file. */
  datatype Image = Image(snapshot: Option<Config>, authority: Option<Config>, fenced: bool)

  predicate IsImage(i: Image, d: Disk) {
    && i.snapshot in d.snapshot.possible
    && i.authority in d.authority.possible
    && i.fenced in d.fence.possible
  }

  function Visible(d: Disk): Image {
    Image(d.snapshot.visible, d.authority.visible, d.fence.visible)
  }

  function Freshly(i: Image): Disk {
    Disk(Cell(i.snapshot, {i.snapshot}), Cell(i.authority, {i.authority}), Cell(i.fenced, {i.fenced}))
  }

  /** `restore_active_configuration`: a fence or any mismatch closes recovery. */
  function Recover(i: Image): Option<Config> {
    if i.fenced then None
    else if i.snapshot.Some? && i.authority == i.snapshot then i.snapshot
    else None
  }

  /** The promise: whatever a crash leaves behind, the next boot recovers nothing
      or a configuration that the engine had confirmed. */
  ghost predicate Safe(d: Disk, confirmed: set<Config>) {
    forall i :: IsImage(i, d) && Recover(i).Some? ==> Recover(i).value in confirmed
  }

  /** What the order of writes keeps: unless the fence is certainly up, nothing else is
      in flight, and what stands there has been confirmed. */
  ghost predicate Guarded(d: Disk, confirmed: set<Config>) {
    && d.WellFormed()
    && (false in d.fence.possible ==>
          && d.snapshot.Settled() && d.authority.Settled()
          && (d.snapshot.visible.Some? && d.authority.visible == d.snapshot.visible ==>
                d.snapshot.visible.value in confirmed))
  }

  /** The fence is up in every image. */
  predicate Fenced(d: Disk) {
    d.WellFormed() && d.fence == Cell(true, {true})
  }

  lemma GuardedIsSafe(d: Disk, confirmed: set<Config>)
    requires Guarded(d, confirmed)
    ensures Safe(d, confirmed)
  {
    forall i | IsImage(i, d) && Recover(i).Some?
      ensures Recover(i).value in confirmed
    {
      assert i.fenced in d.fence.possible;
    }
  }

  /** Booting from any image of a guarded directory is guarded again. */
  lemma ImageIsGuarded(d: Disk, confirmed: set<Config>, i: Image)
    requires Guarded(d, confirmed) && IsImage(i, d)
    ensures Guarded(Freshly(i), confirmed)
  {
    if !i.fenced {
      assert false in d.fence.possible;
    }
  }

  datatype Slot = Snapshot(config: Option<Config>) | Authority(line: Option<Config>) | Fence(up: bool)

  function Renamed(d: Disk, s: Slot): Disk {
    match s
    case Snapshot(c) => d.(snapshot := d.snapshot.Renamed(c))
    case Authority(c) => d.(authority := d.authority.Renamed(c))
    case Fence(up) => d.(fence := d.fence.Renamed(up))
  }

  /** When a single file operation keeps the directory guarded at both of the
      instants it passes through. */
  ghost predicate Permitted(d: Disk, s: Slot, confirmed: set<Config>) {
    match s
    case Snapshot(c) =>
      Fenced(d) || (d.snapshot == Cell(c, {c}) && d.authority.Settled())
    case Authority(c) =>
      Fenced(d) || (d.authority == Cell(c, {c}) && d.snapshot.Settled())
    case Fence(up) =>
      up || (d.snapshot.Settled() && d.authority.Settled() &&
             (d.snapshot.visible.Some? && d.authority.visible == d.snapshot.visible ==>
                d.snapshot.visible.value in confirmed))
  }

  lemma OperationKeepsGuard(d: Disk, s: Slot, confirmed: set<Config>)
    requires Guarded(d, confirmed) && Permitted(d, s, confirmed)
    ensures Guarded(Renamed(d, s), confirmed)
    ensures Guarded(Renamed(d, s).Synced(), confirmed)
  {
    match s
    case Snapshot(c) => {
      if !Fenced(d) { assert d.snapshot.possible + {c} == {c}; }
    }
    case Authority(c) => {
      if !Fenced(d) { assert d.authority.possible + {c} == {c}; }
    }
    case Fence(up) => {
      if up && d.fence.visible != up { assert true in Renamed(d, s).fence.possible; }
    }
  }

  /** Some crash leaves `c` to the next boot. */
  ghost predicate Recoverable(d: Disk, c: Config) {
    exists i :: IsImage(i, d) && Recover(i) == Some(c)
  }

  ghost predicate OnlyRecovers(d: Disk, c: Config) {
    forall i :: IsImage(i, d) ==> Recover(i) == None || Recover(i) == Some(c)
  }

  /** Since the trail was `before`, the directory has looked like this all the time. */
  ghost predicate Steady(i: Image, before: seq<Moment>, after: seq<Moment>) {
    |before| <= |after| && forall k :: |before| <= k < |after| ==> Visible(after[k].disk) == i
  }

  lemma SteadyYet(d: Disk, trail: seq<Moment>)
    ensures Steady(Visible(d), trail, trail)
  {
  }

  /** Nothing is recoverable that was not before, except the configuration in force. */
  ghost predicate NothingNew(before: Disk, after: Disk, active: Option<Config>) {
    forall c :: Recoverable(after, c) ==> Recoverable(before, c) || active == Some(c)
  }

  lemma NothingNewYet(d: Disk)
    ensures forall active :: NothingNew(d, d, active)
  {
  }

  /** Raising the fence, even without synchronisation, adds no recovery. */
  lemma FenceRecoversLess(d: Disk, e: Disk)
    requires e.snapshot == d.snapshot && e.authority == d.authority
    requires e.fence.possible <= d.fence.possible + {true}
    ensures forall c :: Recoverable(e, c) ==> Recoverable(d, c)
  {
    forall c | Recoverable(e, c) ensures Recoverable(d, c) {
      var i :| IsImage(i, e) && Recover(i) == Some(c);
      assert IsImage(i, d);
    }
  }

  /** A directory holding the same candidate as before offers no more recoveries. */
  lemma AuthorizedStays(d: Disk, e: Disk, c: Config)
    requires d.WellFormed() && Recover(Visible(d)) == Some(c)
    requires e.snapshot == Cell(Some(c), {Some(c)}) && e.authority == Cell(Some(c), {Some(c)})
    ensures forall active :: NothingNew(d, e, active)
    ensures !e.fence.visible ==> Recover(Visible(e)) == Some(c)
  {
    forall x | Recoverable(e, x) ensures Recoverable(d, x) {
      assert IsImage(Visible(d), d);
    }
  }

  /** A directory that is closed for certain, or stands on the active configuration, offers nothing new. */
  lemma RolledBackIsNothingNew(d: Disk, e: Disk, active: Option<Config>)
    requires Fenced(e) || (e.snapshot == Cell(active, {active}) && e.authority == Cell(active, {active}))
    ensures NothingNew(d, e, active)
  {
  }

  datatype Moment = Moment(disk: Disk, confirmed: set<Config>)

  /** A directory that authorises a configuration has it in place for certain. */
  lemma AuthorizedIsSettled(d: Disk, confirmed: set<Config>, trail: seq<Moment>, c: Config)
    requires Recorded(d, confirmed, trail)
    ensures d.WellFormed()
    ensures Recover(Visible(d)) == Some(c) ==>
      !d.fence.visible && d.snapshot == Cell(Some(c), {Some(c)}) && d.authority == Cell(Some(c), {Some(c)})
  {
  }

  datatype LoadError = Rejected | Unavailable | Unclear
  datatype ApplyError = Busy | Stopped | Failed

  /** How often the world has refused something so far: a wait for the lock ran out; the directory
      could not be prepared, or a process was not spawned or not stopped; something could not be
      rendered; the engine refused a load; it did not answer a probe; a staged certificate could
      not be committed. */
  datatype Troubles = Troubles(waits: nat, boots: nat, renders: nat, loads: nat, probes: nat, commits: nat)

  predicate Later(a: Troubles, b: Troubles) {
    && a.waits <= b.waits && a.boots <= b.boots && a.renders <= b.renders
    && a.loads <= b.loads && a.probes <= b.probes && a.commits <= b.commits
  }

  lemma LaterYet(a: Troubles)
    ensures Later(a, a)
  {
  }

  /** Something stood in the way of having the verified rendering served. */
  predicate Unbooted(a: Troubles, b: Troubles) {
    a.boots < b.boots || a.probes < b.probes
  }
  datatype Reply = Applied | Unchanged | Refused(error: ApplyError)

  ghost predicate Increasing(s: seq<nat>) {
    forall i, j :: 0 <= i < j < |s| ==> s[i] < s[j]
  }

  /** The directory is guarded now and was at every earlier moment. */
  ghost predicate Recorded(d: Disk, confirmed: set<Config>, trail: seq<Moment>) {
    && Guarded(d, confirmed)
    && (forall m :: m in trail ==> Guarded(m.disk, m.confirmed))
    && |trail| > 0 && trail[|trail| - 1].disk == d
  }

  lemma RecoveredIsConfirmed(d: Disk, confirmed: set<Config>, trail: seq<Moment>)
    requires Recorded(d, confirmed, trail)
    ensures Recover(Visible(d)).Some? ==> Recover(Visible(d)).value in confirmed
  {
    GuardedIsSafe(d, confirmed);
    assert IsImage(Visible(d), d);
  }

  /** The record of a run cut off at moment `k`, with or without a power loss. */
  lemma AfterCrash(d: Disk, confirmed: set<Config>, trail: seq<Moment>, k: nat, image: Image)
    requires Recorded(d, confirmed, trail) && k < |trail| && IsImage(image, trail[k].disk)
    ensures
      var m, past := trail[k], trail[..k + 1];
      && Recorded(m.disk, m.confirmed, past + [Moment(m.disk, m.confirmed)])
      && Recorded(Freshly(image), m.confirmed, past + [Moment(Freshly(image), m.confirmed)])
  {
    var m, past := trail[k], trail[..k + 1];
    assert m in trail && forall x :: x in past ==> x in trail;
    ImageIsGuarded(m.disk, m.confirmed, image);
  }

  lemma Confirming(d: Disk, confirmed: set<Config>, trail: seq<Moment>, more: set<Config>)
    requires Recorded(d, confirmed, trail) && confirmed <= more
    ensures Recorded(d, more, trail)
  {
  }

  /** Commits are in strictly increasing request order, and no unanswered request is among them. */
  ghost predicate Queued(commits: seq<nat>, issued: nat, outstanding: set<nat>) {
    && Increasing(commits)
    && (forall n :: n in commits ==> n <= issued && n !in outstanding)
    && (forall n :: n in outstanding ==> n <= issued)
  }

  lemma LatestCommit(commits: seq<nat>, issued: nat, outstanding: set<nat>, n: nat)
    requires Queued(commits, issued, outstanding)
    requires n <= issued && n !in outstanding
    requires forall c :: c in commits ==> c < n
    ensures Queued(commits + [n], issued, outstanding)
  {
    var s := commits + [n];
    forall i, j | 0 <= i < j < |s| ensures s[i] < s[j] {
      assert i < |commits| && s[i] in commits;
    }
  }

  // ---------- The engine's answers ----------

  /** After a shutdown, which a process may survive. */
  function ShutDown(e: Engine, survives: bool): Engine {
    if survives then e else Down
  }

  /** After a start: a process that is already running is left as it is. */
  function Spawned(e: Engine, json: Json, spawns: bool): Engine {
    if e.Down? && spawns then Serving(json) else e
  }

  /** After an accepted load. */
  function Taken(e: Engine, json: Json): Engine {
    if e.Down? then Down else Serving(json)
  }

  predicate Answers(e: Engine, revision: Option<Config>) {
    e.Serving? && e.json.target == revision
  }

  /** How the calls of one restoration turn out: whether the load is accepted and what it leaves,
      whether the probe succeeds, whether the process survives the shutdown, whether another is
      spawned, answers, and survives in turn. */
  datatype Luck = Luck(
    loads: bool,
    left: Engine,
    answers: bool,
    survives: bool,
    spawns: bool,
    starts: bool,
    lives: bool)

  /** What a restoration leaves: the engine, whether it counts as available, and whether a process
      was kept against a shutdown on the way, which a run remembers as `lingering`. */
  datatype Restoration = Restoration(engine: Engine, available: bool, kept: bool)

  /** `restore_verified_locked` for given answers of the engine. */
  function Restoring(e: Engine, active: Json, luck: Luck): Restoration {
    var loaded := if luck.loads then Taken(e, active) else luck.left;
    if luck.loads && luck.answers && Answers(loaded, active.target) then Restoration(loaded, true, false)
    else
      var down := ShutDown(loaded, luck.survives);
      var tried := Spawned(down, active, luck.spawns);
      if luck.starts && Answers(tried, active.target) then Restoration(tried, true, down.Serving?)
      else
        var last := ShutDown(tried, luck.lives);
        Restoration(last, false, down.Serving? || last.Serving?)
  }

  /** Unless it kept a process, a restoration that makes the engine available again serves the very
      rendering verified last. */
  lemma RenderingIsRestored(e: Engine, active: Json, luck: Luck)
    requires Restoring(e, active, luck).available && !Restoring(e, active, luck).kept
    ensures Restoring(e, active, luck).engine == Serving(active)
  {
  }

  /** Exactly then: after a staged certificate with another rendering of the same configuration was
      loaded and could not be committed, the restoration may mark the engine available while it
      serves that rendering if and only if it kept a process. */
  lemma OtherRenderingIff(active: Json, other: Json, kept: bool)
    requires other.target == active.target && other != active
    ensures
      var staged := Taken(Serving(active), other);
      kept <==> exists luck: Luck :: Restoring(staged, active, luck) == Restoration(Serving(other), true, kept)
  {
    var staged := Taken(Serving(active), other);
    if kept {
      var luck := Luck(false, staged, false, true, false, true, false);
      assert Restoring(staged, active, luck) == Restoration(Serving(other), true, true);
    }
  }

  class ProxyRuntime {
    var disk: Disk
    var engine: Engine
    var stopping: bool
    var initialized: bool
    var available: bool
    var activeJson: Json
    var activeRevision: Option<Config>
    var activeConfiguration: Option<Config>
    var issued: nat

    /** Configurations confirmed by a successful probe, over all boots. */
    var confirmed: set<Config>
    /** Every state of the directory so far. */
    var trail: seq<Moment>
    /** Request numbers in the order in which their configurations were committed. */
    ghost var commits: seq<nat>
    /** Request numbers handed out and not yet answered. */
    ghost var outstanding: set<nat>
    /** File operations that did not go through, and snapshots too large to write. */
    ghost var faults: nat
    /** What the world has refused so far. */
    ghost var troubles: Troubles
    /** An engine process outlived a shutdown or a failed start-up, and was kept. */
    ghost var lingering: bool

    ghost predicate DiskValid()
      reads this
    {
      Recorded(disk, confirmed, trail)
    }

    ghost predicate MemoryValid()
      reads this
    {
      && activeConfiguration == activeRevision
      && activeJson.target == activeRevision
      && (activeRevision.Some? ==> activeRevision.value in confirmed)
      && (initialized && available ==> EngineVerified())
      && (!initialized && engine.Serving? ==> lingering)
    }

    /** The engine is dead or serves the revision verified last; and unless a process was
        once kept against a shutdown, it serves the very rendering. */
    ghost predicate EngineVerified()
      reads this
    {
      engine.Serving? ==>
        && engine.json.target == activeRevision
        && (!lingering ==> engine.json == activeJson)
    }

    ghost predicate QueueValid()
      reads this
    {
      Queued(commits, issued, outstanding)
    }

    ghost predicate Valid()
      reads this
    {
      DiskValid() && MemoryValid() && QueueValid()
    }

    /** A fresh or legacy directory: nothing in it authorises a recovery. */
    constructor (d: Disk)
      requires d.WellFormed()
      requires forall i :: IsImage(i, d) ==> Recover(i).None?
      requires d.snapshot.Settled() && d.authority.Settled()
      ensures Valid() && fresh(this)
      ensures disk == d && !initialized && issued == 0 && commits == [] && confirmed == {}
    {
      disk, engine, stopping, initialized, available := d, Down, false, false, false;
      activeJson, activeRevision, activeConfiguration := Json(None, 0), None, None;
      issued := 0;
      confirmed, commits, outstanding, lingering, faults := {}, [], {}, false, 0;
      troubles := Troubles(0, 0, 0, 0, 0, 0);
      trail := [Moment(d, {})];
      new;
      if false in d.fence.possible {
        assert IsImage(Image(d.snapshot.visible, d.authority.visible, false), d);
      }
    }

    /** One replacing write or unlink; both instants are recorded. */
    method Store(s: Slot) returns (o: Outcome)
      requires DiskValid() && Permitted(disk, s, confirmed)
      modifies this`disk, this`trail, this`faults
      ensures DiskValid()
      ensures o == Lost ==> disk == old(disk)
      ensures o == Unsynced ==> disk == Renamed(old(disk), s)
      ensures o == Done ==> disk == Renamed(old(disk), s).Synced()
      ensures old(trail) <= trail
      ensures faults == old(faults) + if o == Done then 0 else 1
      ensures Visible(Renamed(old(disk), s)) == Visible(old(disk)) ==> Steady(Visible(old(disk)), old(trail), trail)
    {
      o := *;
      if o != Done { faults := faults + 1; }
      if o != Lost {
        OperationKeepsGuard(disk, s, confirmed);
        disk := Renamed(disk, s);
        trail := trail + [Moment(disk, confirmed)];
        if o == Done {
          disk := disk.Synced();
          trail := trail + [Moment(disk, confirmed)];
        }
      }
    }

    /** `fence_configuration_activation` */
    method FenceActivation() returns (ok: bool)
      requires DiskValid()
      modifies this`disk, this`trail, this`faults
      ensures DiskValid() && old(trail) <= trail
      ensures ok ==> disk == Renamed(old(disk), Fence(true)).Synced() && Fenced(disk)
      ensures !ok ==> disk == old(disk) || disk == Renamed(old(disk), Fence(true))
      ensures old(faults) <= faults && (!ok ==> old(faults) < faults)
    {
      var o := Store(Fence(true));
      ok := o == Done;
    }

    /** `persist_active_configuration`, once the rendering fits its size limit. */
    method Persist(c: Config) returns (ok: bool)
      requires DiskValid()
      requires Fenced(disk) || Recover(Visible(disk)) == Some(c)
      modifies this`disk, this`trail, this`faults
      ensures DiskValid() && old(trail) <= trail
      ensures disk.fence.visible == old(disk.fence.visible)
      ensures Fenced(old(disk)) ==> Fenced(disk)
      ensures ok ==>
        && disk == Disk(Cell(Some(c), {Some(c)}), Cell(Some(c), {Some(c)}), disk.fence.Synced())
      ensures !Fenced(old(disk)) ==>
        && disk.snapshot == old(disk.snapshot) && disk.authority == old(disk.authority)
        && disk.fence.possible <= old(disk.fence.possible)
      ensures !Fenced(old(disk)) ==> Steady(Visible(old(disk)), old(trail), trail)
      ensures old(faults) <= faults && (!ok ==> old(faults) < faults)
    {
      var tooLarge: bool := *;
      if tooLarge {
        faults := faults + 1;
        return false;
      }
      var o := Store(Snapshot(Some(c)));
      if o != Done { return false; }
      o := Store(Authority(Some(c)));
      ok := o == Done;
    }

    /** `finish_configuration_activation`: an unlink that happened counts as finished
        even when its synchronisation reports an error. */
    method FinishActivation() returns (ok: bool)
      requires DiskValid() && Permitted(disk, Fence(false), confirmed)
      modifies this`disk, this`trail, this`faults
      ensures DiskValid() && old(trail) <= trail
      ensures !ok ==> disk == old(disk)
      ensures ok ==>
        && disk.snapshot == old(disk.snapshot) && disk.authority == old(disk.authority)
        && !disk.fence.visible
      ensures old(faults) <= faults && (!ok ==> old(faults) < faults)
    {
      var o := Store(Fence(false));
      ok := o != Lost;
    }

    /** `restore_recovery_configuration`: best-effort rollback under the fence. */
    method RestoreRecovery(previous: Option<Config>)
      requires DiskValid()
      requires Fenced(disk)
      requires previous.Some? ==> previous.value in confirmed
      modifies this`disk, this`trail, this`faults
      ensures DiskValid() && old(trail) <= trail
      ensures Fenced(disk) ||
              (disk.snapshot == Cell(previous, {previous}) && disk.authority == Cell(previous, {previous}) &&
               !disk.fence.visible)
      ensures old(faults) <= faults
      ensures faults == old(faults) ==> Recover(Visible(disk)) == previous
    {
      var prepared := FenceActivation();
      if !prepared { return; }
      var restored: bool;
      if previous.Some? {
        restored := Persist(previous.value);
      } else {
        var o := Store(Snapshot(None));
        restored := false;
        if o == Done {
          o := Store(Authority(None));
          restored := o == Done;
        }
      }
      if restored {
        var finished := FinishActivation();
      }
    }

    /** Anything may happen to the engine process, and new requests may arrive. */
    method Interfere()
      requires QueueValid()
      modifies this`engine, this`issued, this`outstanding
      ensures QueueValid() && issued >= old(issued)
      ensures engine == old(engine) || engine == Down
      ensures old(outstanding) <= outstanding
      ensures forall n :: n in outstanding ==> n in old(outstanding) || n > old(issued)
    {
      var dies: bool := *;
      if dies { engine := Down; }
      var arrives: bool := *;
      if arrives { var n := Issue(); }
    }

    /** `fetch_add` on the request counter. */
    method Issue() returns (n: nat)
      requires QueueValid()
      modifies this`issued, this`outstanding
      ensures QueueValid() && issued == old(issued) + 1 == n
      ensures outstanding == old(outstanding) + {n}
    {
      issued := issued + 1;
      n := issued;
      outstanding := outstanding + {n};
    }

    /** `engine.load`: a rejection keeps the old rendering, any other error tells nothing. */
    method Load(json: Json) returns (error: Option<LoadError>)
      modifies this`engine, this`troubles
      ensures troubles == old(troubles).(loads := old(troubles).loads + if error == None then 0 else 1)
      ensures error == None ==> engine == Taken(old(engine), json)
      ensures error == Some(Rejected) ==> engine == old(engine) || engine == Down
    {
      error := *;
      if error.Some? { troubles := troubles.(loads := troubles.loads + 1); }
      match error
      case None => { engine := Taken(engine, json); }
      case Some(Rejected) => {}
      case Some(_) => { engine := *; }
    }

    /** `engine.probe`: success means that the engine serves the probed revision.  It fails for an
        engine that is down or gives no answer, or that serves another revision. */
    method Probe(revision: Option<Config>) returns (ok: bool)
      modifies this`confirmed, this`troubles
      ensures Later(old(troubles), troubles) && troubles == old(troubles).(probes := troubles.probes)
      ensures !ok ==> old(troubles).probes < troubles.probes || (engine.Serving? && engine.json.target != revision)
      ensures ok ==> engine.Serving? && engine.json.target == revision
      ensures ok ==> confirmed == old(confirmed) + (if revision.Some? then {revision.value} else {})
      ensures !ok ==> confirmed == old(confirmed)
    {
      ok := *;
      if engine.Down? { ok := false; }
      if !ok { troubles := troubles.(probes := troubles.probes + 1); }
      if engine.Serving? && engine.json.target != revision { ok := false; }
      if ok && revision.Some? {
        confirmed := confirmed + {revision.value};
      }
    }

    /** `engine.shutdown`; a failed one may leave the process running. */
    method Shutdown() returns (survives: bool)
      modifies this`engine, this`lingering, this`troubles
      ensures troubles == old(troubles).(boots := old(troubles).boots + if engine.Serving? then 1 else 0)
      ensures engine == ShutDown(old(engine), survives)
      ensures lingering == (old(lingering) || engine.Serving?)
    {
      survives := *;
      engine := ShutDown(engine, survives);
      if engine.Serving? {
        lingering := true;
        troubles := troubles.(boots := troubles.boots + 1);
      }
    }

    /** The process is spawned, unless one is running; that may fail. */
    method Spawn(json: Json) returns (spawns: bool)
      modifies this`engine, this`troubles
      ensures engine == Spawned(old(engine), json, spawns)
      ensures troubles == old(troubles).(boots := old(troubles).boots + if spawns then 0 else 1)
    {
      spawns := *;
      if !spawns { troubles := troubles.(boots := troubles.boots + 1); }
      engine := Spawned(engine, json, spawns);
    }

    /** A question that the world may answer badly, and what that is noted as. */
    method Ask(ghost noted: Troubles) returns (bad: bool)
      modifies this`troubles
      ensures troubles == if bad then noted else old(troubles)
    {
      bad := *;
      if bad { troubles := noted; }
    }

    /** `start_engine`: spawns and probes; a process that is already running is only probed. */
    method Start(json: Json) returns (ok: bool, spawns: bool, survives: bool)
      requires DiskValid()
      requires engine.Serving? ==> lingering
      requires json.target.Some? ==> json.target.value in confirmed
      modifies this`engine, this`confirmed, this`lingering, this`troubles
      ensures DiskValid() && confirmed == old(confirmed)
      ensures Later(old(troubles), troubles)
      ensures !ok ==>
        Unbooted(old(troubles), troubles) || (old(engine).Serving? && old(engine).json.target != json.target)
      ensures !ok && engine.Serving? ==> old(troubles).boots < troubles.boots
      ensures
        var tried := Spawned(old(engine), json, spawns);
        if ok then engine == tried && Answers(tried, json.target) else engine == ShutDown(tried, survives)
      ensures ok && !lingering ==> engine.json == json
      ensures lingering == (old(lingering) || (!ok && engine.Serving?))
    {
      survives := false;
      spawns := Spawn(json);
      ok := Probe(json.target);
      if !ok { survives := Shutdown(); }
    }

    /** The rendering verified last is loaded again and probed. */
    method Reload() returns (recovered: bool, loads: bool)
      requires activeRevision.Some? ==> activeRevision.value in confirmed
      modifies this`engine, this`confirmed, this`troubles
      ensures confirmed == old(confirmed) && Later(old(troubles), troubles)
      ensures recovered ==> loads && Answers(engine, activeRevision)
      ensures loads ==> engine == Taken(old(engine), activeJson)
    {
      var error := Load(activeJson);
      loads, recovered := error == None, false;
      if loads {
        recovered := Probe(activeRevision);
        assert confirmed == old(confirmed);
      }
    }

    /** `restore_verified_locked`: go back to the rendering verified last. */
    method RestoreVerified(forceRestart: bool) returns (ghost luck: Luck)
      requires DiskValid()
      requires activeJson.target == activeRevision
      requires activeRevision.Some? ==> activeRevision.value in confirmed
      modifies this`engine, this`confirmed, this`lingering, this`troubles, this`available
      ensures DiskValid() && confirmed == old(confirmed)
      ensures available ==> EngineVerified()
      ensures old(lingering) ==> lingering
      ensures Later(old(troubles), troubles)
      ensures old(available) && !forceRestart ==>
        var r := Restoring(old(engine), activeJson, luck);
        engine == r.engine && available == r.available && lingering == (old(lingering) || r.kept)
    {
      hide Recorded;
      var recovered, loads := false, false;
      if !forceRestart { recovered, loads := Reload(); }
      luck := Luck(loads, engine, recovered, false, false, false, false);
      if recovered { return; }
      available := false;
      var survives := Shutdown();
      var started, spawns, lives := Start(activeJson);
      if started { available := true; }
      luck := luck.(survives := survives, spawns := spawns, starts := started, lives := lives);
    }

    /** `ensure_running_locked` */
    method EnsureRunning() returns (ok: bool)
      requires Valid()
      modifies this`engine, this`confirmed, this`lingering, this`troubles, this`available
      ensures Valid() && confirmed == old(confirmed)
      ensures ok ==> initialized && available && engine.Serving?
      ensures old(lingering) ==> lingering
      ensures Later(old(troubles), troubles)
      ensures !ok ==> stopping || !initialized || Unbooted(old(troubles), troubles)
    {
      if stopping || !initialized { return false; }
      if engine.Serving? && available { return true; }
      var survives := Shutdown();
      var spawns, lives;
      ok, spawns, lives := Start(activeJson);
      available := ok;
    }

    /** `initialize_locked`: boot from what the directory authorises, else closed. */
    method Initialize(materialOfRecovery: nat, materialOfBaseline: nat) returns (error: Option<ApplyError>)
      requires Valid() && !initialized
      modifies this`engine, this`confirmed, this`lingering, this`troubles, this`available, this`initialized,
               this`activeJson, this`activeRevision, this`activeConfiguration
      ensures Valid() && confirmed == old(confirmed)
      ensures error == None ==> initialized && available && engine.Serving?
      ensures error.Some? ==> initialized == old(initialized)
      ensures activeConfiguration == old(activeConfiguration) || activeConfiguration == None ||
              activeConfiguration == Recover(Visible(disk))
      ensures old(lingering) ==> lingering
      ensures Later(old(troubles), troubles) && error != Some(Busy)
      ensures error == Some(Stopped) ==> stopping || Unbooted(old(troubles), troubles)
      ensures error == Some(Failed) ==> old(troubles).renders < troubles.renders
      // Nothing in the way: what the directory authorises is what becomes active.
      ensures troubles == old(troubles) && !stopping && (old(engine).Down? || Adopted(old(engine))) ==>
        error == None && activeConfiguration == Recover(Visible(disk))
    {
      hide Recorded, Queued, Recover;
      var restored: Option<Config>;
      error, restored := Recall();
      if error.Some? { return; }
      var baseline := Json(None, materialOfBaseline);
      var json := if restored.Some? then Json(restored, materialOfRecovery) else baseline;
      var started, fallen := Boot(json, baseline);
      if !started { return Some(Stopped); }
      if fallen { restored, json := None, baseline; }
      if restored.Some? {
        var sourceless := Ask(troubles.(renders := troubles.renders + 1));
        if sourceless {
          lingering := true;
          return Some(Failed);
        }
      }
      Adopt(restored, json);
      error := None;
    }

    /** Memory takes over what the engine was started with. */
    method Adopt(restored: Option<Config>, json: Json)
      requires DiskValid() && QueueValid() && (restored.Some? ==> restored.value in confirmed)
      requires json.target == restored && Answers(engine, restored) && (!lingering ==> engine.json == json)
      modifies this`available, this`initialized, this`activeJson, this`activeRevision, this`activeConfiguration
      ensures Valid() && initialized && available && activeConfiguration == restored
    {
      hide Recorded, Queued;
      activeRevision, activeJson, initialized, available := restored, json, true, true;
      activeConfiguration := restored;
    }

    /** What the directory authorises and can be rendered. */
    method Recall() returns (error: Option<ApplyError>, restored: Option<Config>)
      requires DiskValid()
      modifies this`troubles
      ensures Later(old(troubles), troubles) && error != Some(Busy)
      ensures error == Some(Stopped) ==> stopping || Unbooted(old(troubles), troubles)
      ensures error == Some(Failed) ==> old(troubles).renders < troubles.renders
      ensures restored == Recover(Visible(disk)) || restored == None
      ensures restored.Some? ==> restored.value in confirmed
      ensures troubles == old(troubles) && !stopping ==> error == None && restored == Recover(Visible(disk))
    {
      hide Recorded, Recover;
      restored := None;
      if stopping { return Some(Stopped), None; }
      var unprepared := Ask(troubles.(boots := troubles.boots + 1));
      if unprepared { return Some(Stopped), None; }
      var unrendered := Ask(troubles.(renders := troubles.renders + 1));
      if unrendered { return Some(Failed), None; }
      RecoveredIsConfirmed(disk, confirmed, trail);
      var unrenderable := Ask(troubles.(renders := troubles.renders + 1));
      if !unrenderable { restored := Recover(Visible(disk)); }
      error := None;
    }

    /** The engine is started with this rendering, or else with the closed baseline. */
    method Boot(json: Json, baseline: Json) returns (started: bool, fallen: bool)
      requires DiskValid() && (engine.Serving? ==> lingering)
      requires (json.target.Some? ==> json.target.value in confirmed) && baseline.target == None
      modifies this`engine, this`confirmed, this`lingering, this`troubles
      ensures DiskValid() && confirmed == old(confirmed) && Later(old(troubles), troubles)
      ensures old(lingering) ==> lingering
      ensures started ==>
        && Answers(engine, if fallen then None else json.target)
        && (!lingering ==> engine.json == if fallen then baseline else json)
      ensures !started ==> Unbooted(old(troubles), troubles) && (engine.Serving? ==> lingering)
      ensures fallen ==>
        Unbooted(old(troubles), troubles) || (old(engine).Serving? && old(engine).json.target != json.target)
    {
      hide Recorded;
      var spawns, lives;
      started, spawns, lives := Start(json);
      fallen := !started;
      if fallen {
        var survives := Shutdown();
        started, spawns, lives := Start(baseline);
      }
    }

    /** An engine process that outlived its controller serves what the directory authorises. */
    ghost predicate Adopted(e: Engine)
      reads this`disk
    {
      e.Serving? && e.json.target == Recover(Visible(disk))
    }

    /** The entry of `apply_locked`: boot if needed and have the verified rendering served. */
    method Ready() returns (error: Option<ApplyError>)
      requires Valid()
      modifies this`engine, this`confirmed, this`lingering, this`troubles, this`available, this`initialized,
               this`activeJson, this`activeRevision, this`activeConfiguration
      ensures Valid() && confirmed == old(confirmed)
      ensures error == None ==> initialized && available
      ensures old(initialized) ==>
        initialized && activeConfiguration == old(activeConfiguration) && activeJson == old(activeJson)
      ensures Later(old(troubles), troubles) && error != Some(Busy)
      ensures error == Some(Stopped) ==> stopping || Unbooted(old(troubles), troubles)
      ensures error == Some(Failed) ==> old(troubles).renders < troubles.renders
    {
      if stopping { return Some(Stopped); }
      if !initialized {
        var recovered: nat, baseline: nat := *, *;
        error := Initialize(recovered, baseline);
        if error.Some? { return; }
      }
      var running := EnsureRunning();
      error := if running then None else Some(Stopped);
    }

    /** Fence and persist the candidate, rolling back what was begun. */
    method Stage(config: Config, fenced: bool) returns (ok: bool)
      requires Valid()
      requires !fenced ==> Recover(Visible(disk)) == Some(config)
      modifies this`disk, this`trail, this`faults
      ensures DiskValid() && old(trail) <= trail
      ensures ok ==> Staged(config, fenced)
      ensures !ok ==> NothingNew(old(disk), disk, activeConfiguration)
      ensures !fenced ==> Steady(Visible(old(disk)), old(trail), trail)
      ensures old(faults) <= faults && (!ok ==> old(faults) < faults)
    {
      ghost var shelf := disk;
      if fenced {
        ok := FenceActivation();
        if !ok {
          FenceRecoversLess(shelf, disk);
          return;
        }
      }
      ok := Persist(config);
      if !ok {
        if fenced { RestoreRecovery(activeConfiguration); } else { FenceRecoversLess(shelf, disk); }
      }
    }

    /** The candidate is durable; behind a certain fence if one was asked for. */
    ghost predicate Staged(config: Config, fenced: bool)
      reads this`disk
    {
      && disk.snapshot == Cell(Some(config), {Some(config)})
      && disk.authority == Cell(Some(config), {Some(config)})
      && (if fenced then Fenced(disk) else !disk.fence.visible)
    }

    /** The engine is given the rendering, unless it has it, and must answer for it.  A failure says
        whether the verified rendering must be restored, and whether by force. */
    method Convince(config: Config, json: Json, same: bool) returns (error: Option<ApplyError>, force: Option<bool>)
      requires json.target == Some(config)
      requires same && engine.Serving? ==> engine.json.target == Some(config) && (!lingering ==> engine.json == json)
      modifies this`engine, this`confirmed, this`troubles
      ensures old(confirmed) <= confirmed <= old(confirmed) + {config}
      ensures error == None ==>
        && config in confirmed && Answers(engine, Some(config)) && (!lingering ==> engine.json == json)
      ensures error.Some? && force.None? ==> (engine == old(engine) || engine == Down) && confirmed == old(confirmed)
      ensures Later(old(troubles), troubles) && error != Some(Busy)
      ensures error == Some(Stopped) ==> old(troubles).loads < troubles.loads
      ensures error == Some(Failed) ==> old(troubles).loads < troubles.loads || old(troubles).probes < troubles.probes
    {
      force := None;
      if !same {
        var failure := Load(json);
        if failure.Some? {
          if failure.value != Rejected { force := Some(true); }
          return Some(if failure.value == Unavailable then Stopped else Failed), force;
        }
      }
      var probed := Probe(Some(config));
      if !probed { return Some(Failed), Some(false); }
      error := None;
    }

    /** Load, probe and commit the staged candidate, or go back. */
    method Activate(config: Config, json: Json, same: bool, staged: bool, fenced: bool)
      returns (error: Option<ApplyError>)
      requires Valid() && initialized && available
      requires json.target == Some(config)
      requires same ==> json == activeJson
      requires Staged(config, fenced) && !(staged && fenced)
      modifies this`engine, this`confirmed, this`lingering, this`troubles, this`available, this`disk, this`trail,
               this`faults
      ensures DiskValid() && old(trail) <= trail && old(confirmed) <= confirmed
      ensures old(lingering) ==> lingering
      ensures error == None ==>
        && Staged(config, false) && config in confirmed
        && engine.Serving? && engine.json.target == Some(config) && (!lingering ==> engine.json == json)
      ensures error.Some? ==>
        && MemoryValid()
        && (if fenced then RolledBack() else disk == old(disk))
        && (fenced && faults == old(faults) ==> Recover(Visible(disk)) == activeConfiguration)
      ensures !fenced ==> trail == old(trail)
      ensures old(faults) <= faults && Later(old(troubles), troubles) && error != Some(Busy)
      // A refusal has a cause.
      ensures error == Some(Stopped) ==> old(troubles).loads < troubles.loads
      ensures error == Some(Failed) ==>
        || old(troubles).loads < troubles.loads || old(troubles).probes < troubles.probes
        || (staged && old(troubles).commits < troubles.commits) || (fenced && old(faults) < faults)
    {
      hide Queued, Recorded, Recover;
      var force: Option<bool>;
      error, force := Convince(config, json, same);
      Confirming(disk, old(confirmed), trail, confirmed);
      if error.Some? {
        Withdraw(force, fenced);
        return;
      }
      if staged {
        var uncommitted := Ask(troubles.(commits := troubles.commits + 1));
        if uncommitted {
          Withdraw(Some(false), false);
          return Some(Failed);
        }
      }
      if fenced {
        var finished := FinishActivation();
        if !finished {
          RestoreRecovery(activeConfiguration);
          Withdraw(Some(false), false);
          return Some(Failed);
        }
      }
      error := None;
    }

    /** The candidate is given up: the verified rendering is restored if it must be, then recovery. */
    method Withdraw(force: Option<bool>, fenced: bool)
      requires DiskValid() && activeConfiguration == activeRevision && activeJson.target == activeRevision
      requires activeRevision.Some? ==> activeRevision.value in confirmed
      requires initialized && (force.None? && available ==> EngineVerified()) && (fenced ==> Fenced(disk))
      modifies this`engine, this`confirmed, this`lingering, this`troubles, this`available, this`disk, this`trail,
               this`faults
      ensures DiskValid() && MemoryValid() && confirmed == old(confirmed) && old(trail) <= trail
      ensures old(lingering) ==> lingering
      ensures if fenced then RolledBack() else disk == old(disk) && trail == old(trail) && faults == old(faults)
      ensures old(faults) <= faults && Later(old(troubles), troubles)
      ensures fenced && faults == old(faults) ==> Recover(Visible(disk)) == activeConfiguration
    {
      hide Recorded, Recover;
      if force.Some? { var luck := RestoreVerified(force.value); }
      if fenced { RestoreRecovery(activeConfiguration); }
    }

    /** Recovery is closed for certain, or stands on the active configuration. */
    ghost predicate RolledBack()
      reads this`disk, this`activeConfiguration
    {
      Fenced(disk) ||
      (disk.snapshot == Cell(activeConfiguration, {activeConfiguration}) &&
       disk.authority == Cell(activeConfiguration, {activeConfiguration}))
    }

    /** The middle of `apply_locked`: decide on the fence, stage, activate. */
    method Attempt(config: Config, staged: bool, json: Json) returns (error: Option<ApplyError>)
      requires Valid() && initialized && available
      requires json.target == Some(config)
      modifies this`engine, this`confirmed, this`lingering, this`troubles, this`available, this`disk, this`trail,
               this`faults, this`issued, this`outstanding
      ensures DiskValid() && QueueValid() && old(trail) <= trail && old(confirmed) <= confirmed
      ensures issued >= old(issued) && old(outstanding) <= outstanding
      ensures forall n :: n in outstanding ==> n in old(outstanding) || n > old(issued)
      ensures error == None ==>
        && Staged(config, false) && config in confirmed
        && (engine.Serving? ==> engine.json.target == Some(config) && (!lingering ==> engine.json == json))
      ensures error.Some? ==> MemoryValid() && NothingNew(old(disk), disk, activeConfiguration)
      ensures error.Some? && faults == old(faults) ==>
        Recover(Visible(disk)) == activeConfiguration || Recover(Visible(disk)) == old(Recover(Visible(disk)))
      ensures old(faults) <= faults && Later(old(troubles), troubles) && error != Some(Busy)
      // What is already active and recoverable stays recoverable all the time.
      ensures staged || (activeJson == json && activeRevision == old(Recover(Visible(disk)))) ==>
        Steady(Visible(old(disk)), old(trail), trail)
      // A refusal has a cause.
      ensures error == Some(Stopped) ==> old(troubles).loads < troubles.loads
      ensures error == Some(Failed) ==>
        || (staged && old(Recover(Visible(disk))) != Some(config))
        || (staged && old(troubles).commits < troubles.commits) || (!staged && old(faults) < faults)
        || old(troubles).loads < troubles.loads || old(troubles).probes < troubles.probes
    {
      hide Queued, Recorded, NothingNew, Recover, Steady, Later, Visible;
      AuthorizedIsSettled(disk, confirmed, trail, config);
      NothingNewYet(disk);
      SteadyYet(disk, trail);
      LaterYet(troubles);
      var same := activeJson == json && activeRevision == Some(config);
      var authorized := Recover(Visible(disk)) == Some(config);
      if staged && !authorized { return Some(Failed); }
      var fenced := !staged && (!same || !authorized);
      if !staged {
        var ok := Stage(config, fenced);
        if !ok { return Some(Failed); }
      }
      Interfere();
      ghost var shelf := disk;
      error := Activate(config, json, same, staged, fenced);
      if error.Some? {
        if fenced {
          RolledBackIsNothingNew(old(disk), disk, activeConfiguration);
        } else {
          AuthorizedStays(old(disk), shelf, config);
        }
      }
    }

    /** Boot if needed, render, and give way to a newer request. */
    method Admit(sequence: Option<nat>) returns (error: Option<ApplyError>)
      requires Valid()
      requires sequence.Some? ==> sequence.value in outstanding
      modifies this`engine, this`confirmed, this`lingering, this`troubles, this`available, this`initialized,
               this`activeJson, this`activeRevision, this`activeConfiguration, this`issued, this`outstanding
      ensures Valid() && confirmed == old(confirmed)
      ensures error == None ==> initialized && available
      ensures old(initialized) ==>
        initialized && activeConfiguration == old(activeConfiguration) && activeJson == old(activeJson)
      ensures sequence.Some? ==> sequence.value <= issued && sequence.value !in outstanding
      ensures sequence.Some? && error == None ==> forall n :: n in commits ==> n < sequence.value
      ensures Later(old(troubles), troubles) && old(issued) <= issued
      ensures error == Some(Busy) ==> sequence.Some? && sequence.value < issued
      ensures error == Some(Stopped) ==> stopping || Unbooted(old(troubles), troubles)
      ensures error == Some(Failed) ==> old(troubles).renders < troubles.renders
    {
      if sequence.Some? {
        assert sequence.value !in commits;
        outstanding := outstanding - {sequence.value};
      }
      error := Ready();
      if error.Some? { return; }
      var unrenderable := Ask(troubles.(renders := troubles.renders + 1));
      if unrenderable { return Some(Failed); }
      Interfere();
      if sequence.Some? && sequence.value != issued { return Some(Busy); }
    }

    /** The end of `apply_locked`: memory takes over what the engine confirmed. */
    method Commit(config: Config, json: Json, sequence: Option<nat>) returns (r: Reply)
      requires DiskValid() && QueueValid() && initialized
      requires Staged(config, false) && config in confirmed && json.target == Some(config)
      requires engine.Serving? ==> engine.json.target == Some(config) && (!lingering ==> engine.json == json)
      requires sequence.Some? ==>
        && sequence.value <= issued && sequence.value !in outstanding
        && forall n :: n in commits ==> n < sequence.value
      modifies this`activeRevision, this`activeJson, this`available, this`activeConfiguration, this`commits
      ensures Valid() && !r.Refused?
      ensures activeConfiguration == activeRevision == Some(config) && activeJson == json && available
      ensures Recover(Visible(disk)) == Some(config) && OnlyRecovers(disk, config)
      ensures commits == old(commits) + (if sequence.Some? then [sequence.value] else [])
      ensures r == Unchanged <==> old(activeJson) == json && old(activeRevision) == Some(config)
    {
      var same := activeJson == json && activeRevision == Some(config);
      activeRevision, activeJson, available := Some(config), json, true;
      activeConfiguration := Some(config);
      if sequence.Some? {
        LatestCommit(commits, issued, outstanding, sequence.value);
        commits := commits + [sequence.value];
      }
      r := if same then Unchanged else Applied;
    }

    /** `apply_locked`.  `material` stands for the certificate and provider settings that the
        rendering uses; a staged certificate replaces only those. */
    method ApplyLocked(config: Config, staged: bool, material: nat, sequence: Option<nat>) returns (r: Reply)
      requires Valid()
      requires sequence.Some? ==> sequence.value in outstanding
      modifies this
      ensures Valid()
      ensures old(confirmed) <= confirmed && old(trail) <= trail
      // Success: engine, memory and next boot agree on the requested configuration.
      ensures !r.Refused? ==>
        && activeConfiguration == activeRevision == Some(config) && available
        && config in confirmed
        && (engine.Serving? ==> engine.json.target == Some(config))
        && Recover(Visible(disk)) == Some(config)
        && OnlyRecovers(disk, config)
        && commits == old(commits) + (if sequence.Some? then [sequence.value] else [])
        && activeJson == Json(Some(config), material)
        && (old(initialized) ==>
              (r == Unchanged <==>
                 old(activeRevision) == Some(config) && old(activeJson) == Json(Some(config), material)))
      // Failure: memory is kept, nothing new becomes recoverable but the active one, and without
      // a storage fault the next boot is as before or back on the active one.
      ensures r.Refused? ==>
        && (old(initialized) ==> activeConfiguration == old(activeConfiguration) && activeJson == old(activeJson))
        && NothingNew(old(disk), disk, activeConfiguration)
        && (faults == old(faults) ==>
              Recover(Visible(disk)) == activeConfiguration || Recover(Visible(disk)) == old(Recover(Visible(disk))))
        && commits == old(commits)
      ensures sequence.Some? ==> sequence.value !in outstanding
      ensures old(faults) <= faults && Later(old(troubles), troubles) && stopping == old(stopping)
      // A refusal has a cause.
      ensures r == Refused(Busy) ==> sequence.Some? && sequence.value < issued
      ensures r == Refused(Stopped) ==>
        stopping || Unbooted(old(troubles), troubles) || old(troubles).loads < troubles.loads
      ensures r == Refused(Failed) ==>
        || old(troubles).renders < troubles.renders || old(troubles).loads < troubles.loads
        || old(troubles).probes < troubles.probes || (!staged && old(faults) < faults)
        || (staged && (old(troubles).commits < troubles.commits || old(Recover(Visible(disk))) != Some(config)))
    {
      hide Recorded, Queued, Recover, OnlyRecovers, NothingNew, Visible;
      NothingNewYet(disk);
      var error := Admit(sequence);
      if error.Some? { return Refused(error.value); }
      r := Proceed(config, staged, Json(Some(config), material), sequence);
    }

    /** The request is admitted: attempt it, and commit if that went well. */
    method Proceed(config: Config, staged: bool, json: Json, sequence: Option<nat>) returns (r: Reply)
      requires Valid() && initialized && available && json.target == Some(config)
      requires sequence.Some? ==>
        && sequence.value <= issued && sequence.value !in outstanding
        && forall n :: n in commits ==> n < sequence.value
      modifies this`engine, this`confirmed, this`lingering, this`troubles, this`available, this`disk, this`trail,
               this`faults, this`issued, this`outstanding, this`activeRevision, this`activeJson,
               this`activeConfiguration, this`commits
      ensures Valid() && old(confirmed) <= confirmed && old(trail) <= trail
      ensures !r.Refused? ==>
        && activeConfiguration == activeRevision == Some(config) && available && config in confirmed
        && (engine.Serving? ==> engine.json.target == Some(config))
        && Recover(Visible(disk)) == Some(config) && OnlyRecovers(disk, config)
        && commits == old(commits) + (if sequence.Some? then [sequence.value] else [])
        && activeJson == json
        && (r == Unchanged <==> old(activeRevision) == Some(config) && old(activeJson) == json)
      ensures r.Refused? ==>
        && activeConfiguration == old(activeConfiguration) && activeJson == old(activeJson)
        && NothingNew(old(disk), disk, activeConfiguration)
        && (faults == old(faults) ==>
              Recover(Visible(disk)) == activeConfiguration || Recover(Visible(disk)) == old(Recover(Visible(disk))))
        && commits == old(commits)
      ensures sequence.Some? ==> sequence.value !in outstanding
      ensures old(faults) <= faults && Later(old(troubles), troubles)
      ensures r != Refused(Busy) && (r == Refused(Stopped) ==> old(troubles).loads < troubles.loads)
      ensures r == Refused(Failed) ==>
        || old(troubles).loads < troubles.loads || old(troubles).probes < troubles.probes
        || (!staged && old(faults) < faults)
        || (staged && (old(troubles).commits < troubles.commits || old(Recover(Visible(disk))) != Some(config)))
    {
      hide Recorded, Queued, Recover, OnlyRecovers, NothingNew, Steady, Visible;
      var error := Attempt(config, staged, json);
      if error.Some? { return Refused(error.value); }
      Interfere();
      r := Commit(config, json, sequence);
    }

    /** `apply`, from the moment the lock is held (or the wait for it is given up). */
    method Apply(config: Config, material: nat, sequence: nat) returns (r: Reply)
      requires Valid() && sequence in outstanding
      modifies this
      ensures Valid() && old(trail) <= trail && sequence !in outstanding
      ensures !r.Refused? ==>
        && activeConfiguration == Some(config) && activeJson == Json(Some(config), material)
        && OnlyRecovers(disk, config) && Recover(Visible(disk)) == Some(config)
        && commits == old(commits) + [sequence]
        && (old(initialized) ==>
              (r == Unchanged <==>
                 old(activeRevision) == Some(config) && old(activeJson) == Json(Some(config), material)))
      ensures r.Refused? ==> commits == old(commits) && NothingNew(old(disk), disk, activeConfiguration)
      ensures r.Refused? && old(initialized) ==> activeConfiguration == old(activeConfiguration)
      ensures old(faults) <= faults && Later(old(troubles), troubles) && stopping == old(stopping)
      // A refusal has a cause.
      ensures r == Refused(Busy) ==> old(troubles).waits < troubles.waits || sequence < issued
      ensures r == Refused(Stopped) ==>
        stopping || Unbooted(old(troubles), troubles) || old(troubles).loads < troubles.loads
      ensures r == Refused(Failed) ==>
        || old(troubles).renders < troubles.renders || old(troubles).loads < troubles.loads
        || old(troubles).probes < troubles.probes || old(faults) < faults
      // A request that is no longer the newest when it gets the lock changes nothing.
      ensures sequence < old(issued) ==> r == Refused(Busy) && disk == old(disk) && engine == old(engine)
    {
      var timedOut := Ask(troubles.(waits := troubles.waits + 1));
      if timedOut || sequence != issued {
        outstanding := outstanding - {sequence};
        return Refused(Busy);
      }
      r := ApplyLocked(config, false, material, Some(sequence));
    }

    /** The newest request, with nothing in its way, is applied. */
    method ApplyNewest(config: Config, material: nat) returns (r: Reply)
      requires Valid() && !stopping
      modifies this
      ensures Valid() && Later(old(troubles), troubles)
      ensures troubles == old(troubles) && faults == old(faults) && issued == old(issued) + 1 ==>
        !r.Refused? && activeConfiguration == Some(config) && commits == old(commits) + [issued]
    {
      var n := Issue();
      r := Apply(config, material, n);
      assert r.Refused? ==> r.error == Busy || r.error == Stopped || r.error == Failed;
    }

    /** `apply_staged_for_active`: new certificate material for the configuration in force. */
    method ApplyStaged(material: nat, refers: bool) returns (r: Reply)
      requires Valid()
      modifies this
      ensures Valid() && old(trail) <= trail
      ensures r.Refused? ==> NothingNew(old(disk), disk, activeConfiguration)
      ensures old(initialized) ==> activeConfiguration == old(activeConfiguration)
      ensures old(faults) <= faults && Later(old(troubles), troubles)
      // The engine is given the new material if the configuration in force refers to it.
      ensures !r.Refused? && refers && old(activeConfiguration).Some? ==>
        activeJson == Json(old(activeConfiguration), material)
      ensures !refers || old(activeConfiguration).None? ==>
        engine == old(engine) && disk == old(disk) && activeJson == old(activeJson)
      // A refusal has a cause.
      ensures r == Refused(Busy) ==> old(troubles).waits < troubles.waits
      ensures r == Refused(Stopped) ==>
        stopping || Unbooted(old(troubles), troubles) || old(troubles).loads < troubles.loads
      ensures r == Refused(Failed) ==>
        || old(troubles).renders < troubles.renders || old(troubles).loads < troubles.loads
        || old(troubles).probes < troubles.probes || old(troubles).commits < troubles.commits
        || old(Recover(Visible(disk))) != old(activeConfiguration)
    {
      var timedOut := Ask(troubles.(waits := troubles.waits + 1));
      if timedOut { return Refused(Busy); }
      if stopping { return Refused(Stopped); }
      if !refers || activeConfiguration.None? {
        var uncommitted := Ask(troubles.(commits := troubles.commits + 1));
        return if uncommitted then Refused(Failed) else Unchanged;
      }
      r := ApplyLocked(activeConfiguration.value, true, material, None);
    }

    /** The recovery worker and the readiness check. */
    method Supervise()
      requires Valid()
      modifies this`engine, this`confirmed, this`lingering, this`troubles, this`available, this`initialized,
               this`activeJson, this`activeRevision, this`activeConfiguration
      ensures Valid() && confirmed == old(confirmed)
    {
      var unready: bool := *;
      if unready { available := false; }
      var error := Ready();
    }

    /** The process dies at an earlier or the present moment; with a power loss the
        directory shows one of its possible contents. */
    method CrashAt(k: nat, powerLoss: bool, image: Image)
      requires DiskValid() && k < |trail|
      requires IsImage(image, trail[k].disk)
      modifies this
      ensures Valid() && !initialized && activeConfiguration == None
      ensures disk == if powerLoss then Freshly(image) else old(trail[k].disk)
      ensures confirmed == old(trail[k].confirmed) && commits == []
    {
      var m := trail[k];
      var past := trail[..k + 1];
      AfterCrash(disk, confirmed, trail, k, image);
      disk, confirmed := if powerLoss then Freshly(image) else m.disk, m.confirmed;
      trail := past + [Moment(disk, confirmed)];
      Forget(powerLoss);
    }

    /** A new process: no memory and a request counter at zero.  An engine process may have outlived
        the one that started it, unless the power was lost. */
    method Forget(powerLoss: bool)
      modifies this`engine, this`stopping, this`initialized, this`available, this`lingering, this`activeJson,
               this`activeRevision, this`activeConfiguration, this`issued, this`commits, this`outstanding
      ensures MemoryValid() && QueueValid()
      ensures !initialized && activeConfiguration == None && commits == []
      ensures powerLoss ==> engine == Down
    {
      engine := *;
      if powerLoss { engine := Down; }
      stopping, initialized, available, lingering := false, false, false, engine.Serving?;
      activeJson, activeRevision, activeConfiguration := Json(None, 0), None, None;
      issued, commits, outstanding := 0, [], {};
    }

    /** Any number of requests, supervision rounds and crashes, each crash striking at any
        moment of the operation before it. */
    method Run(rounds: nat)
      requires Valid()
      modifies this
      ensures Valid()
    {
      for round := 0 to rounds
        invariant Valid()
      {
        var begun := |trail|;
        var kind: nat, config: Config, material: nat := *, *, *;
        if kind == 0 {
          var n := Issue();
          Interfere();
          var r := Apply(config, material, n);
        } else if kind == 1 {
          var refers: bool := *;
          var r := ApplyStaged(material, refers);
        } else {
          Supervise();
        }
        var crashes: bool, k: nat, powerLoss: bool, image: Image := *, *, *, *;
        if crashes && begun <= k + 1 && k < |trail| && IsImage(image, trail[k].disk) {
          CrashAt(k, powerLoss, image);
        }
      }
    }
  }

  /** The whole-run promise, over everything `Run` keeps: a power loss at any moment of the
      run leaves the next boot nothing, or a configuration probed successfully by then. */
  lemma EveryBootIsConfirmed(d: Disk, confirmed: set<Config>, trail: seq<Moment>, k: nat, image: Image)
    requires Recorded(d, confirmed, trail) && k < |trail| && IsImage(image, trail[k].disk)
    ensures Recover(image).None? || Recover(image).value in trail[k].confirmed
  {
    assert trail[k] in trail;
    GuardedIsSafe(trail[k].disk, trail[k].confirmed);
  }
}
