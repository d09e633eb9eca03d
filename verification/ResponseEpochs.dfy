/** When what was read and filled: the epochs of the handlers over the shared store.  A time is a
    number of steps taken; the write lock of a handler is held between the increment of its epoch
    and the sweep of its entries. */
module ResponseEpochs {
  import opened Durability
  import opened ResponseEligibility
  import opened ResponseStore
  import opened ResponseLedger
  import opened CacheKey

  /** The epoch of each handler and when it began, which handlers are stopped or locked, and the
      number of steps so far. */
  datatype Times = Times(epochs: map<nat, nat>, begun: map<nat, nat>, stopped: set<nat>, locked: set<nat>, time: nat)

  /** A finished invalidation: when the epoch was incremented and when the sweep ended. */
  datatype Fence = Fence(namespace: nat, bumpedAt: nat, endedAt: nat)

  /** A request for a cached response: its digest, and the epoch it read at some time. */
  datatype Ticket = Ticket(namespace: nat, digest: string, epoch: nat, readAt: nat, missed: bool)

  function Passed(now: Times): Times {
    now.(time := now.time + 1)
  }

  function Provided(now: Times, n: nat): Times {
    Passed(now.(epochs := now.epochs[n := 0], begun := now.begun[n := now.time]))
  }

  function Bumped(now: Times, n: nat): Times
    requires n in now.epochs
  {
    Passed(now.(epochs := now.epochs[n := now.epochs[n] + 1], begun := now.begun[n := now.time],
                locked := now.locked + {n}))
  }

  function Unlocked(now: Times, n: nat): Times {
    Passed(now.(locked := now.locked - {n}))
  }

  function Stopped(now: Times, n: nat): Times {
    Passed(now.(stopped := now.stopped + {n}))
  }

  /** A key of the current epoch was built after that epoch began. */
  ghost predicate Timely(k: Key, readAt: nat, now: Times) {
    && k.namespace in now.epochs && k.namespace in now.begun && readAt < now.time
    && k.epoch <= now.epochs[k.namespace]
    && (k.epoch == now.epochs[k.namespace] ==> now.begun[k.namespace] < readAt)
  }

  /** A ticket carries the digest of a key built from the epoch it read. */
  ghost predicate Holds(ticket: Ticket, digests: map<string, Key>, now: Times) {
    && ticket.digest in digests && |ticket.digest| <= MAX_KEY
    && digests[ticket.digest].namespace == ticket.namespace && digests[ticket.digest].epoch == ticket.epoch
    && Timely(digests[ticket.digest], ticket.readAt, now)
  }

  ghost predicate AllHold(tickets: map<Request, Ticket>, digests: map<string, Key>, now: Times) {
    forall r :: r in tickets ==> Holds(tickets[r], digests, now)
  }

  /** A visible entry was filled for its key; unless its handler is locked it is of the current
      epoch, and the handler runs. */
  ghost predicate Shows(e: Entry, readAt: nat, digests: map<string, Key>, now: Times) {
    && e.key in digests && digests[e.key].namespace == e.namespace && Timely(digests[e.key], readAt, now)
    && (e.namespace !in now.locked ==>
          digests[e.key].epoch == now.epochs[e.namespace] && e.namespace !in now.stopped)
  }

  ghost predicate Current(t: Table, filled: map<Handle, nat>, digests: map<string, Key>, now: Times) {
    forall h :: h in t && t[h].visible ==> h in filled && Shows(t[h], filled[h], digests, now)
  }

  ghost predicate Fenced(fences: seq<Fence>, now: Times) {
    forall i :: 0 <= i < |fences| ==>
      && fences[i].namespace in now.begun && fences[i].bumpedAt <= now.begun[fences[i].namespace]
      && fences[i].bumpedAt <= fences[i].endedAt < now.time
  }

  /** Everything at once. */
  ghost predicate InTime(t: Table, filled: map<Handle, nat>, tickets: map<Request, Ticket>, digests: map<string, Key>,
                         fences: seq<Fence>, now: Times) {
    && Current(t, filled, digests, now) && AllHold(tickets, digests, now) && Fenced(fences, now)
    && now.epochs.Keys == now.begun.Keys && now.locked <= now.epochs.Keys
    && now.stopped <= now.epochs.Keys
    && (forall n :: n in now.begun ==> now.begun[n] < now.time)
  }

  lemma NothingYet()
    ensures InTime(map[], map[], map[], map[], [], Times(map[], map[], {}, {}, 0))
  {
  }

  // ---------- Steps ----------

  /** Epochs only grow, and a new one begins now. */
  ghost predicate Later(now: Times, next: Times) {
    && now.time < next.time
    && (forall n :: n in now.epochs && n in now.begun ==>
          && n in next.epochs && n in next.begun
          && (|| (next.epochs[n] == now.epochs[n] && next.begun[n] == now.begun[n])
              || (next.epochs[n] > now.epochs[n] && next.begun[n] == now.time)))
  }

  lemma HoldsLater(tickets: map<Request, Ticket>, digests: map<string, Key>, now: Times, next: Times)
    requires AllHold(tickets, digests, now) && Later(now, next)
    ensures AllHold(tickets, digests, next)
  {
  }

  lemma FencedLater(fences: seq<Fence>, now: Times, next: Times)
    requires Fenced(fences, now) && Later(now, next) && now.begun.Keys == now.epochs.Keys
    requires forall n :: n in now.begun ==> now.begun[n] < now.time
    ensures Fenced(fences, next)
  {
  }

  /** Entries go, are pinned or released, and time passes. */
  lemma TimePasses(t: Table, u: Table, filled: map<Handle, nat>, tickets: map<Request, Ticket>,
                   digests: map<string, Key>, fences: seq<Fence>, now: Times)
    requires InTime(t, filled, tickets, digests, fences, now) && OnlyFewer(t, u)
    ensures InTime(u, filled, tickets, digests, fences, Passed(now))
  {
    hide AllHold, Fenced;
    HoldsLater(tickets, digests, now, Passed(now));
    FencedLater(fences, now, Passed(now));
  }

  lemma HandlerProvided(t: Table, filled: map<Handle, nat>, tickets: map<Request, Ticket>, digests: map<string, Key>,
                        fences: seq<Fence>, now: Times, n: nat)
    requires InTime(t, filled, tickets, digests, fences, now) && n !in now.epochs
    ensures InTime(t, filled, tickets, digests, fences, Provided(now, n))
  {
    hide AllHold, Fenced;
    HoldsLater(tickets, digests, now, Provided(now, n));
    FencedLater(fences, now, Provided(now, n));
  }

  lemma EpochBumped(t: Table, filled: map<Handle, nat>, tickets: map<Request, Ticket>, digests: map<string, Key>,
                    fences: seq<Fence>, now: Times, n: nat)
    requires InTime(t, filled, tickets, digests, fences, now) && n in now.epochs
    ensures InTime(t, filled, tickets, digests, fences, Bumped(now, n))
  {
    hide AllHold, Fenced;
    HoldsLater(tickets, digests, now, Bumped(now, n));
    FencedLater(fences, now, Bumped(now, n));
  }

  /** The sweep ends an invalidation: nothing of the handler is visible, and the fence stands. */
  lemma FenceStands(t: Table, u: Table, filled: map<Handle, nat>, tickets: map<Request, Ticket>,
                    digests: map<string, Key>, fences: seq<Fence>, now: Times, n: nat)
    requires InTime(t, filled, tickets, digests, fences, now) && n in now.locked && OnlyFewer(t, u)
    requires forall h :: h in u && u[h].visible ==> u[h].namespace != n
    ensures InTime(u, filled, tickets, digests, fences + [Fence(n, now.begun[n], now.time)], Unlocked(now, n))
  {
    hide AllHold;
    HoldsLater(tickets, digests, now, Unlocked(now, n));
    FencedLater(fences, now, Unlocked(now, n));
  }

  lemma HandlerStopped(t: Table, u: Table, filled: map<Handle, nat>, tickets: map<Request, Ticket>,
                       digests: map<string, Key>, fences: seq<Fence>, now: Times, n: nat)
    requires InTime(t, filled, tickets, digests, fences, now) && OnlyFewer(t, u) && n in now.epochs
    requires forall h :: h in u && u[h].visible ==> u[h].namespace != n
    ensures InTime(u, filled, tickets, digests, fences, Stopped(now, n))
  {
    hide AllHold, Fenced;
    HoldsLater(tickets, digests, now, Stopped(now, n));
    FencedLater(fences, now, Stopped(now, n));
  }

  /** Digests of equal texts only: then they come from equal keys. */
  predicate Collisionless(digests: map<string, Key>, d: string, k: Key) {
    d in digests ==> Encode(Parts(digests[d])) == Encode(Parts(k))
  }

  /** The epoch is read and the key digested. */
  lemma TicketDrawn(t: Table, filled: map<Handle, nat>, tickets: map<Request, Ticket>, digests: map<string, Key>,
                    fences: seq<Fence>, now: Times, r: Request, k: Key, d: string)
    requires InTime(t, filled, tickets, digests, fences, now) && Collisionless(digests, d, k) && |d| <= MAX_KEY
    requires k.namespace in now.epochs && k.epoch == now.epochs[k.namespace]
    ensures
      var ticket := Ticket(k.namespace, d, k.epoch, now.time, false);
      InTime(t, filled, tickets[r := ticket], digests[d := k], fences, Passed(now))
  {
    if d in digests { KeyIsInjective(digests[d], k); }
    var more := digests[d := k];
    assert forall x :: x in digests ==> x in more && more[x] == digests[x];
    HoldsLater(tickets, digests, now, Passed(now));
    FencedLater(fences, now, Passed(now));
    hide Encode, Parts;
  }

  /** A request moves on or is over. */
  lemma TicketMoves(t: Table, filled: map<Handle, nat>, tickets: map<Request, Ticket>, digests: map<string, Key>,
                    fences: seq<Fence>, now: Times, r: Request)
    requires InTime(t, filled, tickets, digests, fences, now) && r in tickets
    ensures InTime(t, filled, tickets - {r}, digests, fences, now)
    ensures InTime(t, filled, tickets[r := tickets[r].(missed := true)], digests, fences, now)
  {
    hide Current, Fenced, Timely;
  }

  /** A capture is installed into its own epoch of a handler that runs. */
  lemma CaptureInstalled(t: Table, u: Table, filled: map<Handle, nat>, tickets: map<Request, Ticket>,
                         digests: map<string, Key>, fences: seq<Fence>, now: Times, r: Request, h: Handle)
    requires InTime(t, filled, tickets, digests, fences, now)
    requires h in u && OnlyFewer(t, u - {h}) && r in tickets
    requires
      var ticket := tickets[r];
      && u[h].key == ticket.digest && u[h].namespace == ticket.namespace && ticket.namespace !in now.stopped
      && ticket.namespace in now.epochs && ticket.epoch == now.epochs[ticket.namespace]
    ensures InTime(u, filled[h := tickets[r].readAt], tickets, digests, fences, Passed(now))
  {
    hide Fenced;
    var next, more := Passed(now), filled[h := tickets[r].readAt];
    HoldsLater(tickets, digests, now, next);
    FencedLater(fences, now, next);
    assert Holds(tickets[r], digests, next);
    forall x | x in u && u[x].visible ensures x in more && Shows(u[x], more[x], digests, next) {
      if x != h { assert x in u - {h}; }
    }
  }

  /** A hit of a handler that is not locked was filled by a request for the same key which read its
      epoch after every finished invalidation. */
  lemma HitFollowsFences(t: Table, filled: map<Handle, nat>, tickets: map<Request, Ticket>, digests: map<string, Key>,
                         fences: seq<Fence>, now: Times, r: Request, h: Handle)
    requires InTime(t, filled, tickets, digests, fences, now) && r in tickets
    requires h in t && t[h].visible && t[h].key == tickets[r].digest && tickets[r].namespace !in now.locked
    ensures h in filled && filled[h] < now.time
    ensures tickets[r].namespace == t[h].namespace && t[h].namespace !in now.stopped
    ensures forall i :: 0 <= i < |fences| && fences[i].namespace == tickets[r].namespace ==>
              fences[i].bumpedAt < filled[h]
  {
    assert Holds(tickets[r], digests, now) && Shows(t[h], filled[h], digests, now);
  }
}
