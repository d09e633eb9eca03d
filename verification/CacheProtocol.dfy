/** Requests, fills and mutations of any number of handlers over the shared store, in every
    interleaving.

    A step is one region that the source runs under the handler's lock or the store's, or a
    single atomic load.  `invalidate` is two steps, since the epoch is read without the lock:
    the increment, then the sweep, with the write lock held between them.  A time is the number
    of steps taken so far. */
module CacheProtocol {
  import opened Durability

  type Namespace = nat
  type Request = nat

  /** The content of a key before it is hashed: the digest is taken to be injective, and
      the encoding under it is (`CacheKey.EncodingIsInjective`). */
  datatype Key = Key(namespace: Namespace, epoch: nat, resource: nat)

  /** A visible entry and the time at which its fill read the epoch. */
  datatype Item = Item(readAt: nat)

  datatype Lock = Free | Held(owner: Request, stopping: bool)

  datatype Handler = Handler(epoch: nat, epochAt: nat, stopped: bool, lock: Lock)

  datatype Phase =
    | Opening(namespace: Namespace)                    // mutation, before its first sweep
    | Upstream(namespace: Namespace)                   // mutation, being served
    | Closing(namespace: Namespace, bumpedAt: nat)     // mutation, before its last sweep
    | Keyed(key: Key, readAt: nat)                     // read, epoch loaded
    | Filling(key: Key, readAt: nat)                   // read, missed, response being captured
    | Stopping(namespace: Namespace)                   // cleanup, before its sweep

  /** A finished mutation: when its closing increment and its closing sweep happened. */
  datatype Mutation = Mutation(namespace: Namespace, bumpedAt: nat, endedAt: nat)

  datatype Hit = Hit(key: Key, readAt: nat, at: nat)

  datatype State = State(
    clock: nat,
    handlers: map<Namespace, Handler>,
    requests: map<Request, Phase>,
    visible: map<Key, Item>,
    mutations: seq<Mutation>,
    hits: seq<Hit>,
    cleanedAt: map<Namespace, nat>)

  datatype Step =
    | Provision(namespace: Namespace)
    | Mutate(r: Request, namespace: Namespace)
    | Sweep(r: Request)
    | Served(r: Request)
    | LoadEpoch(r: Request, namespace: Namespace, resource: nat)
    | Lookup(r: Request)
    | Complete(r: Request)
    | Abandon(r: Request)
    | Evict(key: Key)
    | Cleanup(r: Request, namespace: Namespace)

  function Without(visible: map<Key, Item>, n: Namespace): map<Key, Item> {
    map k | k in visible && k.namespace != n :: visible[k]
  }

  predicate Unlocked(s: State, n: Namespace) {
    n in s.handlers && s.handlers[n].lock == Free
  }

  predicate Enabled(s: State, step: Step) {
    match step
    case Provision(n) => n !in s.handlers
    case Mutate(r, n) => r !in s.requests && Unlocked(s, n)
    case Sweep(r) => r in s.requests && (s.requests[r].Opening? || s.requests[r].Closing? || s.requests[r].Stopping?)
    case Served(r) => r in s.requests && s.requests[r].Upstream? && Unlocked(s, s.requests[r].namespace)
    case LoadEpoch(r, n, _) => r !in s.requests && n in s.handlers
    case Lookup(r) => r in s.requests && s.requests[r].Keyed? && Unlocked(s, s.requests[r].key.namespace)
    case Complete(r) => r in s.requests && s.requests[r].Filling? && Unlocked(s, s.requests[r].key.namespace)
    case Abandon(r) => r in s.requests && (s.requests[r].Filling? || s.requests[r].Keyed?)
    case Evict(k) => k in s.visible
    case Cleanup(r, n) => r !in s.requests && Unlocked(s, n)
  }

  /** Locks are held by exactly the requests that will release them. */
  predicate Consistent(s: State) {
    && (forall r :: r in s.requests ==> Target(s.requests[r]) in s.handlers)
    && (forall r :: r in s.requests && (s.requests[r].Opening? || s.requests[r].Closing? || s.requests[r].Stopping?) ==>
          s.handlers[Target(s.requests[r])].lock == Held(r, s.requests[r].Stopping?))
  }

  function Target(p: Phase): Namespace {
    if p.Keyed? || p.Filling? then p.key.namespace else p.namespace
  }

  function Put<K, V>(m: map<K, V>, at: Option<(K, Option<V>)>): map<K, V> {
    match at
    case None => m
    case Some((k, None)) => m - {k}
    case Some((k, Some(v))) => m[k := v]
  }

  /** The handler a step changes.  An invalidation increments the epoch under the write lock,
      a cleanup stops the handler under it, and a sweep releases it. */
  function HandlerAfter(s: State, step: Step): Option<(Namespace, Option<Handler>)>
    requires Enabled(s, step) && Consistent(s)
  {
    match step
    case Provision(n) => Some((n, Some(Handler(0, s.clock, false, Free))))
    case Mutate(r, n) => Some((n, Some(Bumped(s.handlers[n], r, s.clock))))
    case Served(r) => var n := s.requests[r].namespace; Some((n, Some(Bumped(s.handlers[n], r, s.clock))))
    case Cleanup(r, n) => Some((n, Some(s.handlers[n].(stopped := true, lock := Held(r, true)))))
    case Sweep(r) => var n := s.requests[r].namespace; Some((n, Some(s.handlers[n].(lock := Free))))
    case _ => None
  }

  function Bumped(h: Handler, r: Request, now: nat): Handler {
    h.(epoch := h.epoch + 1, epochAt := now, lock := Held(r, false))
  }

  /** The request a step moves on. */
  function PhaseAfter(s: State, step: Step): Option<(Request, Option<Phase>)>
    requires Enabled(s, step) && Consistent(s)
  {
    match step
    case Mutate(r, n) => Some((r, Some(Opening(n))))
    case Served(r) => Some((r, Some(Closing(s.requests[r].namespace, s.clock))))
    case Cleanup(r, n) => Some((r, Some(Stopping(n))))
    case Sweep(r) =>
      Some((r, if s.requests[r].Opening? then Some(Upstream(s.requests[r].namespace)) else None))
    case LoadEpoch(r, n, x) => Some((r, Some(Keyed(Key(n, s.handlers[n].epoch, x), s.clock))))
    case Lookup(r) =>
      var p := s.requests[r];
      Some((r, if s.handlers[p.key.namespace].stopped || p.key in s.visible then None
               else Some(Filling(p.key, p.readAt))))
    case Complete(r) => Some((r, None))
    case Abandon(r) => Some((r, None))
    case _ => None
  }

  /** A completed fill is installed only into its own epoch of a running handler; a sweep
      leaves no entry of its namespace. */
  function VisibleAfter(s: State, step: Step): map<Key, Item>
    requires Enabled(s, step) && Consistent(s)
  {
    match step
    case Complete(r) =>
      var p := s.requests[r];
      var h := s.handlers[p.key.namespace];
      if !h.stopped && p.key.epoch == h.epoch then s.visible[p.key := Item(p.readAt)] else s.visible
    case Sweep(r) => Without(s.visible, s.requests[r].namespace)
    case Evict(k) => s.visible - {k}
    case _ => s.visible
  }

  function MutationsAfter(s: State, step: Step): seq<Mutation>
    requires Enabled(s, step) && Consistent(s)
  {
    if step.Sweep? && s.requests[step.r].Closing? then
      s.mutations + [Mutation(s.requests[step.r].namespace, s.requests[step.r].bumpedAt, s.clock)]
    else s.mutations
  }

  function HitsAfter(s: State, step: Step): seq<Hit>
    requires Enabled(s, step) && Consistent(s)
  {
    if step.Lookup? then
      var key := s.requests[step.r].key;
      if !s.handlers[key.namespace].stopped && key in s.visible
      then s.hits + [Hit(key, s.visible[key].readAt, s.clock)] else s.hits
    else s.hits
  }

  function CleanedAfter(s: State, step: Step): map<Namespace, nat>
    requires Enabled(s, step) && Consistent(s)
  {
    if step.Sweep? && s.requests[step.r].Stopping? then s.cleanedAt[s.requests[step.r].namespace := s.clock]
    else s.cleanedAt
  }

  /** One step; the clock ticks. */
  function Do(s: State, step: Step): State
    requires Enabled(s, step) && Consistent(s)
  {
    State(s.clock + 1, Put(s.handlers, HandlerAfter(s, step)), Put(s.requests, PhaseAfter(s, step)),
          VisibleAfter(s, step), MutationsAfter(s, step), HitsAfter(s, step), CleanedAfter(s, step))
  }

  predicate Initial(s: State) {
    && s.clock == 0 && s.handlers == map[] && s.requests == map[] && s.visible == map[]
    && s.mutations == [] && s.hits == [] && s.cleanedAt == map[]
  }

  // ---------- What every step keeps ----------

  /** A key of the current epoch was built after that epoch began. */
  ghost predicate Timely(s: State, key: Key, readAt: nat) {
    && key.namespace in s.handlers
    && readAt < s.clock
    && key.epoch <= s.handlers[key.namespace].epoch
    && (key.epoch == s.handlers[key.namespace].epoch ==> readAt > s.handlers[key.namespace].epochAt)
  }

  ghost predicate RequestsTimely(s: State) {
    forall r :: r in s.requests && (s.requests[r].Keyed? || s.requests[r].Filling?) ==>
      Timely(s, s.requests[r].key, s.requests[r].readAt)
  }

  /** Outside a locked region every entry is of the current epoch and its handler runs. */
  ghost predicate EntriesCurrent(s: State) {
    forall k :: k in s.visible ==>
      && Timely(s, k, s.visible[k].readAt)
      && k.namespace !in s.cleanedAt
      && (s.handlers[k.namespace].lock == Free ==>
            k.epoch == s.handlers[k.namespace].epoch && !s.handlers[k.namespace].stopped)
  }

  ghost predicate HandlersPast(s: State) {
    && (forall n :: n in s.handlers ==>
          && s.handlers[n].epochAt < s.clock
          && (s.handlers[n].lock.Held? && s.handlers[n].lock.stopping ==> s.handlers[n].stopped))
    && (forall n :: n in s.cleanedAt ==> n in s.handlers && s.handlers[n].stopped && s.cleanedAt[n] < s.clock)
  }

  ghost predicate MutationsPast(s: State) {
    && (forall m :: m in s.mutations ==>
          m.endedAt < s.clock && m.namespace in s.handlers && m.bumpedAt <= s.handlers[m.namespace].epochAt)
    && (forall r :: r in s.requests && s.requests[r].Closing? && s.requests[r].namespace in s.handlers ==>
          s.requests[r].bumpedAt <= s.handlers[s.requests[r].namespace].epochAt)
  }

  /** The promise about a hit. */
  ghost predicate Fresh(s: State, hit: Hit) {
    && hit.readAt < hit.at < s.clock
    && (forall m :: m in s.mutations && m.namespace == hit.key.namespace && m.endedAt < hit.at ==>
          m.bumpedAt < hit.readAt)
    && (hit.key.namespace in s.cleanedAt ==> hit.at < s.cleanedAt[hit.key.namespace])
  }

  ghost predicate Inv(s: State) {
    && Consistent(s) && RequestsTimely(s) && EntriesCurrent(s) && HandlersPast(s) && MutationsPast(s)
    && forall h :: h in s.hits ==> Fresh(s, h)
  }

  lemma StepKeepsConsistent(s: State, step: Step)
    requires Consistent(s) && Enabled(s, step)
    ensures Consistent(Do(s, step))
  {
  }

  /** Epochs only grow, and a new one begins at the present clock. */
  ghost predicate Advances(s: State, t: State) {
    && s.clock < t.clock
    && forall n :: n in s.handlers ==>
         && n in t.handlers
         && (|| (t.handlers[n].epoch == s.handlers[n].epoch && t.handlers[n].epochAt == s.handlers[n].epochAt)
             || (t.handlers[n].epoch > s.handlers[n].epoch && t.handlers[n].epochAt == s.clock))
  }

  lemma StepAdvances(s: State, step: Step)
    requires Consistent(s) && Enabled(s, step)
    ensures Advances(s, Do(s, step))
  {
  }

  lemma TimelyStays(s: State, t: State, key: Key, readAt: nat)
    requires Timely(s, key, readAt) && Advances(s, t)
    ensures Timely(t, key, readAt)
  {
  }

  lemma StepKeepsRequests(s: State, step: Step)
    requires Consistent(s) && Enabled(s, step) && RequestsTimely(s) && HandlersPast(s)
    ensures RequestsTimely(Do(s, step))
  {
    var t := Do(s, step);
    StepAdvances(s, step);
    hide VisibleAfter, HitsAfter, CleanedAfter, MutationsAfter;
    forall r | r in t.requests && (t.requests[r].Keyed? || t.requests[r].Filling?)
      ensures Timely(t, t.requests[r].key, t.requests[r].readAt)
    {
      if !(step.LoadEpoch? && step.r == r) {
        assert r in s.requests && s.requests[r].key == t.requests[r].key &&
            s.requests[r].readAt == t.requests[r].readAt;
        TimelyStays(s, t, s.requests[r].key, s.requests[r].readAt);
      }
    }
  }

  lemma StepKeepsEntries(s: State, step: Step)
    requires Consistent(s) && Enabled(s, step) && RequestsTimely(s) && EntriesCurrent(s) && HandlersPast(s)
    ensures EntriesCurrent(Do(s, step))
  {
  }

  lemma StepKeepsHandlers(s: State, step: Step)
    requires Consistent(s) && Enabled(s, step) && HandlersPast(s)
    ensures HandlersPast(Do(s, step))
  {
  }

  lemma StepKeepsMutations(s: State, step: Step)
    requires Consistent(s) && Enabled(s, step) && HandlersPast(s) && MutationsPast(s)
    ensures MutationsPast(Do(s, step))
  {
    StepAdvances(s, step);
    hide VisibleAfter, HitsAfter, CleanedAfter;
  }

  lemma StepKeepsHits(s: State, step: Step)
    requires Inv(s) && Enabled(s, step)
    ensures forall h :: h in Do(s, step).hits ==> Fresh(Do(s, step), h)
  {
  }

  lemma StepKeepsInv(s: State, step: Step)
    requires Inv(s) && Enabled(s, step)
    ensures Inv(Do(s, step))
  {
    StepKeepsConsistent(s, step);
    StepKeepsRequests(s, step);
    StepKeepsEntries(s, step);
    StepKeepsHandlers(s, step);
    StepKeepsMutations(s, step);
    StepKeepsHits(s, step);
  }

  // ---------- Runs ----------

  ghost predicate Runs(s: State, steps: seq<Step>, t: State)
    decreases steps
  {
    if steps == [] then s == t
    else Consistent(s) && Enabled(s, steps[0]) && Runs(Do(s, steps[0]), steps[1..], t)
  }

  lemma {:induction false} RunKeepsInv(s: State, steps: seq<Step>, t: State)
    requires Inv(s) && Runs(s, steps, t)
    ensures Inv(t)
    decreases steps
  {
    if steps != [] {
      StepKeepsInv(s, steps[0]);
      RunKeepsInv(Do(s, steps[0]), steps[1..], t);
    }
  }

  /** In every run, a hit was filled by a request that read its epoch after the closing increment
      of every mutation finished before the lookup. */
  lemma {:induction false} HitsFollowMutations(s: State, steps: seq<Step>, t: State, hit: Hit, m: Mutation)
    requires Initial(s) && Runs(s, steps, t)
    requires hit in t.hits && m in t.mutations
    requires m.namespace == hit.key.namespace && m.endedAt < hit.at
    ensures m.bumpedAt < hit.readAt < hit.at
  {
    RunKeepsInv(s, steps, t);
  }

  /** Once a cleanup has swept, no entry of its handler is visible in any later state, and no
      later lookup hits. */
  lemma {:induction false} NothingAfterCleanup(s: State, steps: seq<Step>, t: State, n: Namespace)
    requires Initial(s) && Runs(s, steps, t) && n in t.cleanedAt
    ensures forall k :: k in t.visible ==> k.namespace != n
    ensures forall h :: h in t.hits && h.key.namespace == n ==> h.at < t.cleanedAt[n]
  {
    RunKeepsInv(s, steps, t);
  }

  // ---------- What single steps bring about ----------

  /** A completed fill is found by the next lookup of its key if and only if it is of the current
      epoch of a handler that runs. */
  lemma CompletedIsVisibleIff(s: State, r: Request)
    requires Inv(s) && Enabled(s, Complete(r))
    ensures
      var key, h := s.requests[r].key, s.handlers[s.requests[r].key.namespace];
      var t := Do(s, Complete(r));
      && (!h.stopped && key.epoch == h.epoch ==> key in t.visible && t.visible[key] == Item(s.requests[r].readAt))
      && (h.stopped || key.epoch != h.epoch ==> t.visible == s.visible)
      && (forall k :: k != key ==> (k in t.visible <==> k in s.visible)) && r !in t.requests
  {
  }

  /** A lookup hits if and only if its handler runs and its key is visible; otherwise a running
      handler has it filled. */
  lemma LookupHitsIff(s: State, r: Request)
    requires Inv(s) && Enabled(s, Lookup(r))
    ensures
      var key, t := s.requests[r].key, Do(s, Lookup(r));
      var running := !s.handlers[key.namespace].stopped;
      && (t.hits != s.hits <==> running && key in s.visible)
      && (t.hits != s.hits ==> t.hits == s.hits + [Hit(key, s.visible[key].readAt, s.clock)])
      && (running && key !in s.visible ==> r in t.requests && t.requests[r] == Filling(key, s.requests[r].readAt))
      && t.visible == s.visible
  {
  }

  /** A mutation bars lookups until its sweep, and its sweep leaves nothing of the handler. */
  lemma MutationSweeps(s: State, r: Request, n: Namespace)
    requires Inv(s) && Enabled(s, Mutate(r, n))
    ensures
      var t := Do(s, Mutate(r, n));
      && t.handlers[n].epoch == s.handlers[n].epoch + 1 && !Unlocked(t, n) && Consistent(t) && Enabled(t, Sweep(r))
      && var u := Do(t, Sweep(r));
         Unlocked(u, n) && (forall k :: k in u.visible <==> k in s.visible && k.namespace != n) &&
         r in u.requests && u.requests[r] == Upstream(n)
  {
    StepKeepsConsistent(s, Mutate(r, n));
  }
}
