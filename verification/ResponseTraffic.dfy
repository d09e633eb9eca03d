/** Any number of requests over the one shared store: readers that hold pins, writers that hold
    reservations, invalidations and clean-ups, in every interleaving of their steps.  The epoch is
    read without a lock, an invalidation is two steps with the write lock held between them, and a
    lookup waits for that lock. */
module ResponseTraffic {
  import opened Durability
  import opened ResponseEligibility
  import opened ResponseStore
  import opened ResponseLedger
  import opened ResponseCapture
  import opened ResponseEpochs
  import opened CacheKey

  /** No entry was stored in the future. */
  ghost predicate Past(t: Table, clock: int) {
    forall h :: h in t ==> t[h].stored <= clock
  }

  lemma PastFewer(t: Table, u: Table, clock: int)
    requires Past(t, clock) && OnlyFewer(t, u)
    ensures Past(u, clock)
  {
  }

  lemma NothingStored()
    ensures Past(map[], 0)
  {
  }

  lemma PastLater(t: Table, clock: int, later: int)
    requires Past(t, clock) && clock <= later
    ensures Past(t, later)
  {
  }

  lemma PastInstalled(t: Table, u: Table, h: Handle, clock: int)
    requires Past(t, clock) && h in u && OnlyFewer(t, u - {h}) && u[h].stored <= clock
    ensures Past(u, clock)
  {
    forall x | x in u ensures u[x].stored <= clock {
      if x != h { assert x in u - {h}; }
    }
  }

  class Traffic {
    const cache: SharedCache
    var handlers: map<nat, Handler>
    /** The handlers whose write lock is held. */
    var locked: set<nat>
    /** The requests that have read an epoch, the open captures and the held pins. */
    var tickets: map<Request, Ticket>
    var writers: map<Request, CaptureWriter>
    var pins: map<Request, Handle>
    var next: Request
    var clock: int
    /** The keys digested so far, which are taken not to collide. */
    var digests: map<string, Key>
    /** When each entry's fill read its epoch, and the invalidations finished so far. */
    ghost var filled: map<Handle, nat>
    ghost var fences: seq<Fence>
    var times: Times

    ghost predicate Valid()
      reads this, cache, cache.store, handlers.Values, writers.Values
    {
      Stocked() && Provisioned() && InEpochs() && Captures() && Numbered()
    }

    ghost predicate Stocked()
      reads this`pins, this`clock, cache, cache.store
    {
      cache.Valid() && cache.holders == pins && Past(cache.store.table, clock)
    }

    ghost predicate Provisioned()
      reads this`handlers
    {
      forall n :: n in handlers ==>
        handlers[n].cache == cache && handlers[n].namespace == n && 1 <= handlers[n].ttl <= 3600
    }

    /** The times are those of the handlers, and everything read and filled is in time. */
    ghost predicate InEpochs()
      reads this`handlers, this`locked, this`tickets, this`digests, this`filled, this`fences, this`times, cache.store,
            handlers.Values
    {
      && InTime(cache.store.table, filled, tickets, digests, fences, times)
      && handlers.Keys == times.epochs.Keys && locked == times.locked
      && (forall n :: n in handlers ==> handlers[n].epoch == times.epochs[n])
      && (forall n :: n in handlers ==> (handlers[n].stopped <==> n in times.stopped))
    }

    /** A capture belongs to the request that missed. */
    ghost predicate Capturing(r: Request)
      requires r in writers
      reads this`writers, this`tickets, this`handlers, this`clock, cache`owners, writers.Values
    {
      && r in tickets && tickets[r].missed && tickets[r].namespace in handlers && writers[r].request == r
      && writers[r].handler == handlers[tickets[r].namespace] && writers[r].handler.cache == cache
      && writers[r].key == tickets[r].digest && writers[r].epoch == tickets[r].epoch
      && writers[r].Own() && writers[r].started <= clock
    }

    ghost predicate Captures()
      reads this`writers, this`tickets, this`handlers, this`clock, cache`owners, writers.Values
    {
      (forall r :: r in writers ==> Capturing(r)) && (forall r :: r in cache.owners ==> r in writers)
    }

    ghost predicate Numbered()
      reads this`tickets, this`pins, this`next
    {
      (forall r :: r in tickets ==> r !in pins && r < next) && (forall r :: r in pins ==> r < next)
    }

    /** Other requests, handlers and times leave the captures alone. */
    twostate lemma CapturesStay()
      requires old(Captures()) && writers == old(writers) && cache.owners == old(cache.owners)
      requires forall r :: r in writers ==> unchanged(writers[r]) && r in tickets && tickets[r] == old(tickets)[r]
      requires forall n :: n in old(handlers) ==> n in handlers && handlers[n] == old(handlers)[n]
      requires old(clock) <= clock
      ensures Captures()
    {
      forall r | r in writers ensures Capturing(r) {
        assert old(Capturing(r));
        writers[r].Stays();
      }
    }

    /** And so does what the capture of another request does. */
    twostate lemma OthersStay(r: Request)
      requires old(Captures()) && writers == old(writers) && tickets == old(tickets) && handlers == old(handlers)
      requires clock == old(clock) && r in writers && writers[r].Own()
      requires forall x :: x in writers && x != r ==> unchanged(writers[x])
      requires forall x :: x != r ==> (x in cache.owners <==> x in old(cache.owners))
      ensures Captures()
    {
      forall x | x in writers ensures Capturing(x) {
        assert old(Capturing(x));
        if x != r { writers[x].Stays(); }
      }
    }

    constructor ()
      ensures Valid() && fresh(cache) && fresh(cache.store)
      ensures handlers == map[] && tickets == map[] && writers == map[] && pins == map[]
    {
      hide Indexed, Live, Accounted, Owed, InTime, Past, CaptureWriter.Own;
      cache := new SharedCache();
      handlers, locked, tickets, writers, pins, next, clock := map[], {}, map[], map[], map[], 0, 0;
      digests, filled, fences, times := map[], map[], [], Times(map[], map[], {}, {}, 0);
      new;
      NothingYet();
      NothingStored();
    }

    /** A request for handler `n` reads the epoch and digests its key. */
    method Load(n: nat, k: Key, digest: string) returns (r: Request)
      requires Valid() && n in handlers && k.namespace == n && k.epoch == handlers[n].epoch
      requires |digest| <= MAX_KEY && Collisionless(digests, digest, k)
      modifies this`tickets, this`digests, this`next, this`times
      ensures Valid() && r !in old(tickets)
      ensures tickets == old(tickets)[r := Ticket(n, digest, k.epoch, old(times).time, false)]
    {
      hide Stocked, InTime, Captures, Collisionless;
      r := next;
      NotWriting(r);
      TicketDrawn(cache.store.table, filled, tickets, digests, fences, times, r, k, digest);
      tickets := tickets[r := Ticket(n, digest, k.epoch, times.time, false)];
      digests, next, times := digests[digest := k], next + 1, Passed(times);
      CapturesStay();
    }

    /** Only requests that missed have a capture. */
    lemma NotWriting(r: Request)
      requires Captures() && (r !in tickets || !tickets[r].missed)
      ensures r !in writers && r !in cache.owners
      ensures forall x :: x in writers ==> x in tickets
    {
      hide CaptureWriter.Own;
      assert r in writers ==> Capturing(r);
      forall x | x in writers ensures x in tickets { assert Capturing(x); }
    }

    /** What a hit promises: it is fresh, of a handler that runs, and was filled by a request which
        read its epoch after every invalidation of that handler finished by now. */
    ghost predicate Promised(h: Handle, ticket: Ticket)
      reads this`handlers, this`clock, this`filled, this`fences, this`times, cache.store, handlers.Values
    {
      && h in cache.store.table && h in filled && ticket.namespace in handlers
      && var e := cache.store.table[h];
         && e.visible && e.key == ticket.digest && e.namespace == ticket.namespace && FreshAt(e, clock)
         && !handlers[e.namespace].stopped && filled[h] < times.time
         && forall i :: 0 <= i < |fences| && fences[i].namespace == e.namespace ==> fences[i].bumpedAt < filled[h]
    }

    ghost predicate Unloaded(n: nat)
      reads this`handlers, handlers.Values
    {
      n in handlers && handlers[n].stopped
    }

    /** `get` for a request that has its key.  A hit is pinned until it is delivered. */
    method Lookup(r: Request) returns (hit: bool)
      requires Valid() && r in tickets && !tickets[r].missed && tickets[r].namespace !in locked
      modifies this`pins, this`tickets, this`times, cache`holders, cache.store
      ensures Valid()
      ensures hit ==> r in pins && Promised(pins[r], old(tickets)[r])
      ensures hit <==>
        old(!Unloaded(tickets[r].namespace) && cache.Answers(tickets[r].digest, clock))
      ensures tickets == if hit || r !in tickets then old(tickets) - {r}
                         else old(tickets)[r := old(tickets)[r].(missed := true)]
    {
      hide Stocked, InEpochs, Captures, Promised, Provisioned;
      InHandlers(r);
      NotWriting(r);
      var ticket := tickets[r];
      if handlers[ticket.namespace].stopped {
        Move(r, true);
        return false;
      }
      var got := Fetch(r);
      hit := got.Some?;
      Move(r, hit);
    }

    /** The read of the store, pinned for the request. */
    method Fetch(r: Request) returns (got: Option<Handle>)
      requires Stocked() && InEpochs() && r !in pins && r in tickets && tickets[r].namespace !in locked
      modifies this`pins, this`times, cache`holders, cache.store
      ensures Stocked() && InEpochs()
      ensures pins == if got.None? then old(pins) else old(pins)[r := got.value]
      ensures got.Some? ==> Promised(got.value, tickets[r])
      ensures got.Some? <==> old(cache.Answers(tickets[r].digest, clock))
    {
      hide InTime, OnlyFewer, FreshAt, Past, SharedCache.Valid;
      InHandlers(r);
      ghost var t := cache.store.table;
      got := cache.Get(tickets[r].digest, clock, r);
      PastFewer(t, cache.store.table, clock);
      TimePasses(t, cache.store.table, filled, tickets, digests, fences, times);
      times := Passed(times);
      if got.Some? {
        pins := pins[r := got.value];
        StoredBy(cache.store.table, got.value, clock);
        HitFollowsFences(cache.store.table, filled, tickets, digests, fences, times, r, got.value);
      }
    }

    /** A request without a capture is over, or has missed. */
    method Move(r: Request, over: bool)
      requires InEpochs() && Captures() && r in tickets && r !in writers
      modifies this`tickets
      ensures InEpochs() && Captures()
      ensures tickets == if over then old(tickets) - {r} else old(tickets)[r := old(tickets)[r].(missed := true)]
    {
      hide InTime, Captures;
      TicketMoves(cache.store.table, filled, tickets, digests, fences, times, r);
      AllTickets();
      tickets := if over then tickets - {r} else tickets[r := tickets[r].(missed := true)];
      CapturesStay();
    }

    lemma InHandlers(r: Request)
      requires InEpochs() && r in tickets
      ensures tickets[r].namespace in handlers && |tickets[r].digest| <= MAX_KEY
    {
      hide Current, Fenced;
      assert Holds(tickets[r], digests, times);
    }

    /** The body has been sent. */
    method Deliver(r: Request)
      requires Valid() && r in pins
      modifies this`pins, this`times, cache`holders, cache.store
      ensures Valid() && pins == old(pins) - {r}
    {
      hide Stocked, InTime, Captures, OnlyFewer;
      ghost var t := cache.store.table;
      Return(r);
      Passes(t);
    }

    method Return(r: Request)
      requires Stocked() && r in pins
      modifies this`pins, cache`holders, cache.store
      ensures Stocked() && pins == old(pins) - {r} && OnlyFewer(old(cache.store.table), cache.store.table)
    {
      hide OnlyFewer, Past, SharedCache.Valid, Owed, Indexed, Live, Accounted;
      ghost var t := cache.store.table;
      cache.Release(pins[r], r);
      PastFewer(t, cache.store.table, clock);
      pins := pins - {r};
    }

    /** Entries have gone since the table was `t`, and a step is over. */
    method Passes(ghost t: Table)
      requires OnlyFewer(t, cache.store.table) && InTime(t, filled, tickets, digests, fences, times)
      modifies this`times
      ensures InTime(cache.store.table, filled, tickets, digests, fences, times) && times == Passed(old(times))
    {
      hide InTime, OnlyFewer;
      TimePasses(t, cache.store.table, filled, tickets, digests, fences, times);
      times := Passed(times);
    }

    /** A miss is passed on, to be captured. */
    method Begin(r: Request)
      requires Valid() && r in tickets && tickets[r].missed && r !in writers
      modifies this`writers
      ensures Valid() && r in writers && fresh(writers[r]) && writers == old(writers)[r := writers[r]]
    {
      hide Stocked, InEpochs, Captures, Numbered, SharedCache.Valid, CaptureWriter.Own;
      InHandlers(r);
      Unowned(r);
      var w := new CaptureWriter(handlers[tickets[r].namespace], tickets[r].digest, tickets[r].epoch, clock, r);
      writers := writers[r := w];
      CapturesMore(r);
    }

    lemma Unowned(r: Request)
      requires Stocked() && Captures() && r !in writers
      ensures cache.Valid() && r !in cache.owners
    {
      hide SharedCache.Valid, Past, CaptureWriter.Own;
    }

    twostate lemma CapturesMore(new r: Request)
      requires old(Captures()) && r !in old(writers) && r in writers && writers == old(writers)[r := writers[r]]
      requires tickets == old(tickets) && handlers == old(handlers) && clock == old(clock)
      requires cache.owners == old(cache.owners) && Capturing(r)
      requires forall x :: x in old(writers) ==> unchanged(old(writers)[x])
      ensures Captures()
    {
      forall x | x in writers ensures Capturing(x) {
        if x != r {
          assert old(Capturing(x));
          writers[x].Stays();
        }
      }
    }

    /** A request that is not captured is over. */
    method Drop(r: Request)
      requires Valid() && r in tickets && r !in writers
      modifies this`tickets
      ensures Valid() && tickets == old(tickets) - {r}
    {
      hide Stocked, InEpochs, Captures;
      Move(r, true);
    }

    lemma AllTickets()
      requires Captures()
      ensures forall x :: x in writers ==> x in tickets
    {
      hide CaptureWriter.Own;
      forall x | x in writers ensures x in tickets { assert Capturing(x); }
    }

    lemma Writing(r: Request)
      requires Captures() && r in writers
      ensures Capturing(r) && forall x :: x in writers && x != r ==> writers[x] != writers[r]
    {
      hide CaptureWriter.Own;
      forall x | x in writers && x != r ensures writers[x] != writers[r] { assert Capturing(x) && Capturing(r); }
    }

    /** The origin sends its header. */
    method Header(r: Request, status: nat, response: Response, date: string)
      requires Valid() && r in writers && Parsed(response) && |date| == 29
      modifies this`times, cache, cache.store, writers[r]
      ensures Valid()
    {
      hide InTime, Captures, OnlyFewer, Past, Owed, Indexed, Live, Accounted, Granted, FullSize, Eligible, Dressed,
        SharedCache.Crammed;
      ghost var t := cache.store.table;
      Writing(r);
      writers[r].WriteHeader(status, response, date, clock);
      PastFewer(t, cache.store.table, clock);
      Passes(t);
      OthersStay(r);
    }

    /** The origin sends a part of its body, of which the client takes the first `n` bytes. */
    method Body(r: Request, p: seq<Byte>, n: nat, error: bool, response: Response, date: string)
      requires Valid() && r in writers && Parsed(response) && |date| == 29 && n <= |p|
      modifies this`times, cache, cache.store, writers[r]
      ensures Valid()
    {
      hide InTime, Captures, OnlyFewer, Past, Owed, Indexed, Live, Accounted, Granted, FullSize, Eligible, Dressed,
        SharedCache.Crammed;
      ghost var t := cache.store.table;
      Writing(r);
      writers[r].Write(p, n, error, response, date, clock);
      PastFewer(t, cache.store.table, clock);
      Passes(t);
      OthersStay(r);
    }

    /** The connection is flushed early or taken over. */
    method Divert(r: Request)
      requires Valid() && r in writers
      modifies this`times, cache, cache.store, writers[r]
      ensures Valid()
    {
      hide InTime, Captures, OnlyFewer, Past, Owed, Indexed, Live, Accounted, Granted, FullSize, Eligible, Dressed,
        SharedCache.Crammed;
      ghost var t := cache.store.table;
      Writing(r);
      writers[r].Reject();
      PastFewer(t, cache.store.table, clock);
      Passes(t);
      OthersStay(r);
    }

    /** The response is over: what was reserved is given back, once. */
    method End(r: Request, complete: bool, final: Response) returns (installed: Option<Handle>)
      requires Valid() && r in writers && Parsed(final)
      modifies this`writers, this`tickets, this`filled, this`times, cache, cache.store, writers[r]
      ensures Valid() && writers == old(writers) - {r} && tickets == old(tickets) - {r} && r !in cache.owners
      ensures old(writers)[r].taken == old(writers)[r].given
    {
      hide Stocked, InEpochs, Numbered, Provisioned, Captures;
      Writing(r);
      installed := Close(r, writers[r], complete, final);
      NotOwed(r);
      Forget(r);
      Drop(r);
    }

    method Forget(r: Request)
      requires Valid() && r in writers && r !in cache.owners
      modifies this`writers
      ensures Valid() && writers == old(writers) - {r}
    {
      hide Stocked, InEpochs, Numbered, Provisioned, Captures;
      writers := writers - {r};
      CapturesLess(r);
    }

    twostate lemma CapturesLess(r: Request)
      requires old(Captures()) && writers == old(writers) - {r} && r !in cache.owners
      requires tickets == old(tickets) && handlers == old(handlers) && clock == old(clock)
      requires cache.owners == old(cache.owners) && forall x :: x in writers ==> unchanged(writers[x])
      ensures Captures()
    {
      forall x | x in writers ensures Capturing(x) {
        assert old(Capturing(x));
        writers[x].Stays();
      }
    }

    lemma NotOwed(r: Request)
      requires Captures() && r in writers && !writers[r].reserved
      ensures r !in cache.owners
    {
      hide Granted;
      assert Capturing(r);
    }

    method Close(r: Request, w: CaptureWriter, complete: bool, final: Response) returns (installed: Option<Handle>)
      requires Valid() && r in writers && writers[r] == w && Parsed(final)
      modifies this`filled, this`times, cache, cache.store, w
      ensures Valid() && !w.reserved && w.taken == w.given
    {
      hide Stocked, InTime, Captures, OnlyFewer, CaptureWriter.Own;
      ghost var t := cache.store.table;
      Writing(r);
      installed := Seal(r, w, complete, final);
      if installed.Some? { Installed(t, r, installed.value); } else { Passes(t); }
    }

    /** `finish`, as far as store and captures are concerned. */
    method Seal(r: Request, w: CaptureWriter, complete: bool, final: Response) returns (installed: Option<Handle>)
      requires Stocked() && Captures() && r in writers && writers[r] == w && Parsed(final)
      modifies cache, cache.store, w
      ensures Stocked() && Captures() && !w.reserved && w.taken == w.given
      ensures installed.Some? ==>
        && installed.value in cache.store.table && !w.handler.stopped && w.epoch == w.handler.epoch
        && cache.store.table[installed.value].key == w.key
        && cache.store.table[installed.value].namespace == w.handler.namespace
      ensures
        var u := cache.store.table;
        OnlyFewer(old(cache.store.table), if installed.Some? then u - {installed.value} else u)
    {
      hide Captures, OnlyFewer, Past, Owed, Indexed, Live, Accounted, Granted, FullSize, Grounded, Eligible, WithLength;
      ghost var t := cache.store.table;
      Writing(r);
      w.complete := complete;
      installed := w.Finish(final, clock);
      if installed.Some? {
        PastInstalled(t, cache.store.table, installed.value, clock);
      } else {
        PastFewer(t, cache.store.table, clock);
      }
      OthersStay(r);
    }

    /** The capture of `r` has been installed since the table was `t`. */
    method Installed(ghost t: Table, ghost r: Request, ghost h: Handle)
      requires h in cache.store.table && OnlyFewer(t, cache.store.table - {h}) && r in tickets
      requires InTime(t, filled, tickets, digests, fences, times)
      requires cache.store.table[h].key == tickets[r].digest && cache.store.table[h].namespace == tickets[r].namespace
      requires tickets[r].namespace in times.epochs && tickets[r].namespace !in times.stopped
      requires tickets[r].epoch == times.epochs[tickets[r].namespace]
      modifies this`filled, this`times
      ensures InTime(cache.store.table, filled, tickets, digests, fences, times)
      ensures times == Passed(old(times)) && filled == old(filled)[h := tickets[r].readAt]
    {
      hide InTime, OnlyFewer;
      CaptureInstalled(t, cache.store.table, filled, tickets, digests, fences, times, r, h);
      filled, times := filled[h := tickets[r].readAt], Passed(times);
    }

    /** A mutating request begins or ends: its epoch first, under the write lock. */
    method Bump(n: nat)
      requires Valid() && n in handlers && n !in locked
      modifies this`locked, this`times, handlers[n]
      ensures Valid() && locked == old(locked) + {n} && handlers[n].epoch == old(handlers[n].epoch) + 1
    {
      hide Stocked, InTime, Captures, Provisioned, Numbered;
      Apart(n);
      EpochBumped(cache.store.table, filled, tickets, digests, fences, times, n);
      handlers[n].Bump();
      locked, times := locked + {n}, Bumped(times, n);
    }

    lemma Apart(n: nat)
      requires Provisioned() && n in handlers
      ensures forall m :: m in handlers && m != n ==> handlers[m] != handlers[n]
    {
      assert forall m :: m in handlers ==> handlers[m].namespace == m;
    }

    /** Then the sweep, which ends the invalidation. */
    method Sweep(n: nat)
      requires Valid() && n in locked
      modifies this`locked, this`times, this`fences, cache.store
      ensures Valid() && locked == old(locked) - {n}
      ensures n in old(times).begun
      ensures fences == old(fences) + [Fence(n, old(times).begun[n], old(times).time)]
    {
      hide InTime, Captures, OnlyFewer, Past, Owed, Indexed, Live, Accounted, Retained, OfOthers, Members;
      LockedIsKnown(n);
      ghost var t := cache.store.table;
      handlers[n].Sweep();
      PastFewer(t, cache.store.table, clock);
      FenceStands(t, cache.store.table, filled, tickets, digests, fences, times, n);
      fences := fences + [Fence(n, times.begun[n], times.time)];
      locked, times := locked - {n}, Unlocked(times, n);
    }

    lemma LockedIsKnown(n: nat)
      requires InEpochs() && n in locked
      ensures n in handlers && n in times.begun
    {
      hide Current, AllHold, Fenced;
    }

    /** A handler is unloaded. */
    method Clean(n: nat)
      requires Valid() && n in handlers && n !in locked
      modifies this`times, cache.store, handlers[n]
      ensures Valid() && handlers[n].stopped
      ensures forall h :: h in cache.store.table && cache.store.table[h].visible ==> cache.store.table[h].namespace != n
    {
      hide InTime, Captures, OnlyFewer, Past, Owed, Indexed, Live, Accounted;
      ghost var t := cache.store.table;
      handlers[n].Cleanup();
      PastFewer(t, cache.store.table, clock);
      HandlerStopped(t, cache.store.table, filled, tickets, digests, fences, times, n);
      times := Stopped(times, n);
    }

    method Provision(n: nat, ttl: nat)
      requires Valid() && n !in handlers && 1 <= ttl <= 3600
      modifies this`handlers, this`times
      ensures Valid() && n in handlers && fresh(handlers[n]) && handlers == old(handlers)[n := handlers[n]]
    {
      hide Stocked, InTime, Captures, Numbered;
      HandlerProvided(cache.store.table, filled, tickets, digests, fences, times, n);
      KnownStopped(n);
      AllTickets();
      var h := new Handler(n, ttl, cache);
      handlers, times := handlers[n := h], Provided(times, n);
      CapturesStay();
    }

    lemma KnownStopped(n: nat)
      requires InEpochs() && n !in handlers
      ensures n !in times.stopped
    {
      hide Current, AllHold, Fenced;
    }

    method Wait(time: nat)
      requires Valid()
      modifies this`clock
      ensures Valid()
    {
      hide InEpochs, Captures, Past, SharedCache.Valid;
      PastLater(cache.store.table, clock, clock + time);
      AllTickets();
      clock := clock + time;
      CapturesStay();
    }

    /** Every interleaving: no step ever lacks what it gives back. */
    method Run()
      requires Valid()
      modifies this, cache, cache.store, handlers.Values, writers.Values
      ensures Valid()
    {
      hide Stocked, InTime, Captures, FreshAt;
      var steps: int := *;
      while steps > 0
        invariant Valid()
        invariant forall n :: n in handlers ==> handlers[n] in old(handlers.Values) || fresh(handlers[n])
        invariant forall r :: r in writers ==> writers[r] in old(writers.Values) || fresh(writers[r])
      {
        Any();
        steps := steps - 1;
      }
    }

    /** One step of some request. */
    method Any()
      requires Valid()
      modifies this, cache, cache.store, handlers.Values, writers.Values
      ensures Valid()
      ensures forall n :: n in handlers ==> handlers[n] in old(handlers.Values) || fresh(handlers[n])
      ensures forall r :: r in writers ==> writers[r] in old(writers.Values) || fresh(writers[r])
    {
      hide Stocked, InTime, Captures, FreshAt;
      var choice: int := *;
      if choice == 0 { Serve(); } else if choice == 1 { Respond(); } else { Manage(); }
    }

    /** A step of a request at its handler. */
    method Serve()
      requires Valid()
      modifies this, cache, cache.store
      ensures Valid() && handlers == old(handlers)
      ensures forall r :: r in writers ==> writers[r] in old(writers.Values) || fresh(writers[r])
    {
      hide Stocked, InTime, Captures, FreshAt, Collisionless;
      var choice: int, r: int, n: int, k: Key, digest: string := *, *, *, *, *;
      if choice == 0 && n in handlers && |digest| <= MAX_KEY {
        var keyed := k.(namespace := n, epoch := handlers[n].epoch);
        if Collisionless(digests, digest, keyed) { var request := Load(n, keyed, digest); }
      } else if choice == 1 && r in tickets && !tickets[r].missed && tickets[r].namespace !in locked {
        var hit := Lookup(r);
      } else if choice == 2 && r in pins {
        Deliver(r);
      } else if choice == 3 && r in tickets && tickets[r].missed && r !in writers {
        Begin(r);
      } else if choice == 4 && r in tickets && r !in writers {
        Drop(r);
      }
    }

    /** A step of a response on its way through a capture. */
    method Respond()
      requires Valid()
      modifies this, cache, cache.store, writers.Values
      ensures Valid() && handlers == old(handlers)
      ensures forall r :: r in writers ==> writers[r] in old(writers.Values)
    {
      hide Stocked, InTime, Captures, FreshAt;
      var choice: int, r: int := *, *;
      var response: Response, date: string, count: int, p: seq<Byte>, flag: bool := *, *, *, *, *;
      if r !in writers || !Parsed(response) || |date| != 29 || count < 0 { return; }
      if choice == 0 {
        Header(r, count, response, date);
      } else if choice == 1 && count <= |p| {
        Body(r, p, count, flag, response, date);
      } else if choice == 2 {
        Divert(r);
      } else {
        var installed := End(r, flag, response);
      }
    }

    /** A step of a mutation, of the configuration or of the clock. */
    method Manage()
      requires Valid()
      modifies this, cache, cache.store, handlers.Values
      ensures Valid() && writers == old(writers)
      ensures forall n :: n in handlers ==> handlers[n] in old(handlers.Values) || fresh(handlers[n])
    {
      hide Stocked, InTime, Captures, FreshAt;
      var choice: int, n: int, count: int := *, *, *;
      if choice == 0 && n in handlers && n !in locked {
        Bump(n);
      } else if choice == 1 && n in locked {
        Sweep(n);
      } else if choice == 2 && n in handlers && n !in locked {
        Clean(n);
      } else if choice == 3 && n >= 0 && n !in handlers && 1 <= count <= 3600 {
        Provision(n, count);
      } else if count >= 0 {
        Wait(count);
      }
    }

    /** Once every request has ended, nothing is owed; and with nothing visible the store is empty
        and all its counters are back at zero. */
    lemma Ended()
      requires Valid() && writers == map[] && pins == map[]
      ensures cache.owners == {} && cache.holders == map[] && cache.store.fills == 0 && cache.store.readers == 0
      ensures (forall h :: h in cache.store.table ==> !cache.store.table[h].visible) ==>
                cache.store.table == map[] && cache.store.bytes == 0 && cache.store.count == 0
    {
      hide Pinned, AllGrounded, Indexed, Live, Accounted, InEpochs;
      assert cache.owners == {};
      if forall h :: h in cache.store.table ==> !cache.store.table[h].visible { cache.Drains(); }
    }
  }

  lemma StoredBy(t: Table, h: Handle, clock: int)
    requires Past(t, clock) && h in t
    ensures t[h].stored <= clock
  {
  }
}
