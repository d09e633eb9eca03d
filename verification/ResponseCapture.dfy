/** A handler of the response cache and the writer that captures one response for it. */
module ResponseCapture {
  import opened Durability
  import opened ResponseEligibility
  import opened ResponseStore
  import opened ResponseLedger
  import CacheKey

  class Handler {
    const namespace: nat
    const ttl: nat
    const cache: SharedCache
    var epoch: nat
    var stopped: bool

    /** `Provision`, with a namespace that no other handler has. */
    constructor (namespace: nat, ttl: nat, cache: SharedCache)
      requires 1 <= ttl <= 3600
      ensures this.namespace == namespace && this.ttl == ttl && this.cache == cache
      ensures epoch == 0 && !stopped
    {
      this.namespace, this.ttl, this.cache := namespace, ttl, cache;
      epoch, stopped := 0, false;
    }

    /** The two halves of `invalidate`, between which the write lock is held. */
    method Bump()
      modifies this`epoch
      ensures epoch == old(epoch) + 1
    {
      epoch := epoch + 1;
    }

    method Sweep()
      requires cache.Valid()
      modifies cache.store
      ensures cache.Valid()
      ensures cache.store.table ==
        Retained(old(cache.store.table), OfOthers(old(cache.store.table), Members(old(cache.store.lru)), namespace))
      ensures forall h :: h in cache.store.table && cache.store.table[h].visible ==>
                cache.store.table[h].namespace != namespace
      ensures OnlyFewer(old(cache.store.table), cache.store.table)
    {
      cache.Invalidate(namespace);
    }

    /** `invalidate`: a new epoch, and nothing left of the old ones. */
    method Invalidate()
      requires cache.Valid()
      modifies this`epoch, cache.store
      ensures cache.Valid() && epoch == old(epoch) + 1
      ensures cache.store.table ==
        Retained(old(cache.store.table), OfOthers(old(cache.store.table), Members(old(cache.store.lru)), namespace))
      ensures OnlyFewer(old(cache.store.table), cache.store.table)
    {
      Bump();
      Sweep();
    }

    method Cleanup()
      requires cache.Valid()
      modifies this`stopped, cache.store
      ensures cache.Valid() && stopped
      ensures forall h :: h in cache.store.table && cache.store.table[h].visible ==>
                cache.store.table[h].namespace != namespace
      ensures OnlyFewer(old(cache.store.table), cache.store.table)
    {
      stopped := true;
      cache.Invalidate(namespace);
    }
  }

  /** The final header with the length that was promised at its start. */
  function WithLength(r: Response, n: nat): (w: Response)
    ensures Parsed(r) ==> Parsed(w)
  {
    if FullSize(r.fields) <= MAX_HEADERS
    then r.(length := Some(n), fields := Replaced(r.fields, Field("Content-Length", [CacheKey.Decimal(n)])))
    else r
  }

  /** At the end a response is judged by its final header with the length promised at its start,
      whatever length that header gives by then. */
  lemma FinalIsJudged(r: Response, n: nat, limit: nat, started: int)
    ensures Eligible(WithLength(r, n), limit, started) <==>
      && n <= MAX_BODY && FullSize(r.fields) <= MAX_HEADERS
      && FullSize(Replaced(r.fields, Field("Content-Length", [CacheKey.Decimal(n)]))) <= MAX_HEADERS
      && !r.barred && r.media && r.vary && MayShare(r.directives)
      && WellDated(r, PolicyOf(r)) && Remaining(r, PolicyOf(r), limit, started) > 0
  {
    hide FullSize, Storable, MayShare, MaxAges, SharedAges;
    StorableIffShared(r.directives);
  }

  /** What a reservation was granted for: lifetime, age and length of an eligible response. */
  ghost predicate Granted(r: Response, limit: nat, started: int, ttl: int, age: int, expected: nat) {
    && Parsed(r) && limit <= 3600 && Eligible(r, limit, started) && expected == r.length.value
    && ttl == Remaining(r, PolicyOf(r), limit, started) && age == InitialAge(r, started)
  }

  class CaptureWriter {
    const handler: Handler
    const key: string
    const epoch: nat
    const started: int
    ghost const request: Request
    var wrote: bool
    var reserved: bool
    var rejected: bool
    var complete: bool
    var expected: nat
    var body: seq<Byte>
    var header: seq<Field>
    var ttl: int
    var age: int
    /** The response whose header was granted. */
    var granted: Response
    /** The date that its header was given. */
    var dated: string
    /** All that the client has received of the body, and how often a slot was taken and given back. */
    ghost var delivered: seq<Byte>
    ghost var taken: nat
    ghost var given: nat

    ghost predicate Valid()
      reads this, handler.cache, handler.cache.store
    {
      handler.cache.Valid() && Own()
    }

    /** The writer's part: it holds a reservation exactly if it is listed as an owner. */
    ghost predicate Own()
      reads this, handler.cache`owners
    {
      && 1 <= handler.ttl <= 3600 && |key| <= MAX_KEY
      && (reserved <==> request in handler.cache.owners)
      && taken == given + (if reserved then 1 else 0) && taken <= 1
      && (!wrote ==> taken == 0 && delivered == [])
      && (reserved ==>
            && !rejected && body == delivered && |body| <= expected
            && Granted(granted, handler.ttl, started, ttl, age, expected)
            && header == Dressed(granted, dated) && FullSize(header) <= MAX_HEADERS + DATE_BYTES)
    }

    /** What a method of this writer may do to the store: its own slot, and fewer entries. */
    twostate predicate Alone()
      reads this, handler.cache, handler.cache.store
    {
      && handler.cache.owners ==
         (if reserved then old(handler.cache.owners) + {request} else old(handler.cache.owners) - {request})
      && handler.cache.holders == old(handler.cache.holders)
      && OnlyFewer(old(handler.cache.store.table), handler.cache.store.table)
    }

    /** A writer is not disturbed by what others do to the store. */
    twostate lemma Stays()
      requires old(Own()) && unchanged(this)
      requires request in old(handler.cache.owners) <==> request in handler.cache.owners
      ensures Own()
    {
      hide Granted, FullSize;
    }

    /** What an open capture keeps in memory fits into its reservation. */
    lemma CaptureFits()
      requires Own() && reserved
      ensures |body| + RawSize(header) + |key| + OVERHEAD <= RESERVATION
    {
      hide FullSize, RawSize, Remaining, InitialAge, Storable, Dressed;
      FullSizeCovers(header);
    }

    constructor (handler: Handler, key: string, epoch: nat, started: int, ghost request: Request)
      requires handler.cache.Valid() && 1 <= handler.ttl <= 3600 && |key| <= MAX_KEY && request !in handler.cache.owners
      ensures Valid() && !reserved && taken == 0
      ensures this.handler == handler && this.key == key && this.epoch == epoch && this.started == started
      ensures this.request == request
    {
      this.handler, this.key, this.epoch, this.started, this.request := handler, key, epoch, started, request;
      wrote, reserved, rejected, complete, expected := false, false, false, false, 0;
      body, header, ttl, age, delivered := [], [], 0, 0, [];
      granted := Response(None, [], false, false, false, [], None, None, None);
      taken, given, dated := 0, 0, "";
    }

    /** `reject`: gives the slot back, once. */
    method Reject()
      requires Valid()
      modifies this`rejected, this`reserved, this`body, this`header, this`given, handler.cache, handler.cache.store
      ensures Valid() && rejected && !reserved && Alone()
      ensures handler.cache.store.table == old(handler.cache.store.table)
    {
      hide Owed, Granted, OnlyFewer, Indexed, Live, Accounted, Eligible, Dressed, SharedCache.Crammed;
      FewerSame(handler.cache.store.table);
      rejected := true;
      if reserved {
        var none := handler.cache.Finish(None, request);
        reserved := false;
        given := given + 1;
      }
      body, header := [], [];
    }

    /** `WriteHeader`: the first final status decides whether the response is captured; a later
        one changes nothing. */
    method WriteHeader(status: nat, response: Response, date: string, now: int)
      requires Valid() && Parsed(response) && |date| == 29
      modifies this, handler.cache, handler.cache.store
      ensures Valid() && Alone() && delivered == old(delivered) && complete == old(complete)
      ensures reserved && !old(reserved) ==>
        !old(wrote) && status == 200 && !handler.stopped && granted == response && dated == date && body == []
      ensures reserved && old(reserved) ==> Unmoved() && body == old(body)
      ensures 100 <= status < 200 ==> !reserved && wrote == old(wrote)
      ensures !(100 <= status < 200) ==> wrote
      // A first final 200 that is eligible is captured unless the store has no slot for it.
      ensures status == 200 && !old(wrote) && !old(rejected) && Eligible(response, handler.ttl, started) ==>
        reserved || handler.stopped || handler.cache.Crammed()
      ensures old(reserved) && !(100 <= status < 200) ==> reserved
    {
      hide Owed, Granted, OnlyFewer, Indexed, Live, Accounted, Eligible, Dressed, SharedCache.Crammed;
      FewerSame(handler.cache.store.table);
      if 100 <= status < 200 {
        Reject();
        return;
      }
      if wrote { return; }
      wrote := true;
      if status == 200 && !rejected { Capture(response, date, now); }
    }

    /** The grant of an open capture is settled. */
    twostate predicate Unmoved()
      reads this
    {
      && granted == old(granted) && dated == old(dated) && ttl == old(ttl) && age == old(age)
      && expected == old(expected) && header == old(header)
    }

    method Capture(response: Response, date: string, now: int)
      requires Valid() && !reserved && !rejected && wrote && taken == 0 && delivered == []
      requires Parsed(response) && |date| == 29
      modifies this`reserved, this`expected, this`ttl, this`age, this`header, this`body, this`granted, this`dated,
               this`taken, handler.cache, handler.cache.store
      ensures Valid() && Alone()
      ensures reserved ==> !handler.stopped && granted == response && dated == date && body == []
      ensures Eligible(response, handler.ttl, started) ==> reserved || handler.stopped || handler.cache.Crammed()
    {
      hide Owed, OnlyFewer, Indexed, Live, Accounted, Granted, Remaining, InitialAge, FullSize, PolicyOf, Storable;
      FewerSame(handler.cache.store.table);
      var grant := EligibleResponse(response, handler.ttl, started);
      if grant.Some? && !handler.stopped {
        var ok := handler.cache.Reserve(now, request);
        if ok { Open(response, date, grant.value); }
      }
    }

    /** The slot is taken: the grant is noted and the capture begins. */
    method Open(response: Response, date: string, grant: Grant)
      requires request in handler.cache.owners && wrote && !rejected && taken == given == 0 && delivered == []
      requires 1 <= handler.ttl <= 3600 && |key| <= MAX_KEY
      requires Parsed(response) && |date| == 29 && Eligible(response, handler.ttl, started)
      requires response.length.Some? && grant.length == response.length.value
      requires grant.duration == Remaining(response, PolicyOf(response), handler.ttl, started)
      requires grant.age == InitialAge(response, started)
      modifies this`reserved, this`expected, this`ttl, this`age, this`header, this`body, this`granted, this`dated,
               this`taken
      ensures Own() && reserved && granted == response && dated == date && body == []
    {
      hide Granted, Eligible, Remaining, InitialAge, FullSize, PolicyOf;
      GrantIs(response, handler.ttl, started, date);
      taken, reserved, granted, dated := taken + 1, true, response, date;
      expected, ttl, age := grant.length, grant.duration, grant.age;
      header := Dressed(response, date);
      body := [];
    }

    /** `Write`, of which the client took the first `n` bytes. */
    method Write(p: seq<Byte>, n: nat, error: bool, response: Response, date: string, now: int)
      requires Valid() && Parsed(response) && |date| == 29 && n <= |p|
      modifies this, handler.cache, handler.cache.store
      ensures Valid() && Alone() && wrote && complete == old(complete)
      ensures delivered == old(delivered) + p[..n]
      ensures old(reserved) ==> (reserved <==> !error && n == |p| && |p| <= old(expected) - |old(body)|)
      ensures old(reserved) && !reserved ==> rejected
      ensures old(reserved) && reserved ==> body == old(body) + p && Unmoved()
      ensures !old(reserved) && reserved ==> !old(wrote) && granted == response && dated == date && body == p
    {
      hide Owed, Granted, OnlyFewer, Indexed, Live, Accounted, Eligible, Dressed, SharedCache.Crammed;
      FewerSame(handler.cache.store.table);
      ghost var t := handler.cache.store.table;
      if !wrote {
        WriteHeader(200, response, date, now);
      }
      ghost var u := handler.cache.store.table;
      if reserved {
        if error || n != |p| || |p| > expected - |body| {
          Reject();
        } else {
          body := body + p;
          assert p[..n] == p;
        }
      }
      delivered := delivered + p[..n];
    }

    /** When `finish` installs what was captured. */
    ghost predicate Completed(final: Response, now: int)
      reads this, handler`epoch, handler`stopped
    {
      && reserved && complete && !handler.stopped && epoch == handler.epoch
      && |body| == expected && now < started + ttl
      && Eligible(WithLength(final, expected), handler.ttl, started)
    }

    /** `finish`: a completed capture is always installed, with exactly what the client received and
        for as long as it was granted; whatever was taken has then been given back. */
    method Finish(final: Response, now: int) returns (installed: Option<Handle>)
      requires Valid() && Parsed(final)
      modifies this`reserved, this`given, handler.cache, handler.cache.store
      ensures Valid() && !reserved && taken == given
      ensures handler.cache.owners == old(handler.cache.owners) - {request}
      ensures handler.cache.holders == old(handler.cache.holders)
      ensures installed.Some? <==> old(Completed(final, now))
      ensures installed.Some? ==>
        && installed.value in handler.cache.store.table
        && var e := handler.cache.store.table[installed.value];
           && e.visible && e.namespace == handler.namespace && e.key == key
           && e.body == delivered && |e.body| == expected
           && e.stored == started && e.origin == Origin(granted, handler.ttl, dated) && Grounded(e)
           && e.header == Dressed(granted, dated) && e.expires == started + ttl && e.age == age
      ensures
        var u := handler.cache.store.table;
        OnlyFewer(old(handler.cache.store.table), if installed.Some? then u - {installed.value} else u)
    {
      hide Owed, Eligible, WithLength, OnlyFewer, Granted, Grounded, Indexed, Live, Accounted, FullSize, Dressed;
      FewerSame(handler.cache.store.table);
      if !reserved { return None; }
      var cached := Compose(final, now);
      installed := handler.cache.Finish(cached, request);
      reserved := false;
      given := given + 1;
    }

    /** The entry of a completed capture. */
    method Compose(final: Response, now: int) returns (cached: Option<Entry>)
      requires Valid() && reserved && Parsed(final)
      ensures cached.Some? <==> Completed(final, now)
      ensures cached.Some? ==>
        var e := cached.value;
        && e.visible && e.refs == 0 && e.namespace == handler.namespace && e.key == key
        && e.body == body && |e.body| == expected && e.cost <= RESERVATION
        && e.stored == started && e.origin == Origin(granted, handler.ttl, dated) && Grounded(e)
        && e.header == Dressed(granted, dated) && e.expires == started + ttl && e.age == age
    {
      hide Owed, Eligible, WithLength, Granted, Grounded, Indexed, Live, Accounted, FullSize, Charged, Dressed;
      cached := None;
      var expires := started + ttl;
      if complete && !rejected && !handler.stopped && epoch == handler.epoch && |body| == expected && now < expires {
        var grant := EligibleResponse(WithLength(final, expected), handler.ttl, started);
        if grant.Some? {
          var size := HeaderSize(header);
          var cost := |body| + size + |key| + OVERHEAD;
          var entry := Entry(handler.namespace, key, header, body, expires, started, age, cost, 0, true,
                             Origin(granted, handler.ttl, dated));
          ChargedFor(entry, size);
          GrantGrounds(entry, ttl, expected);
          CostFits(|body|, size, |key|);
          cached := Some(entry);
        }
      }
    }
  }

  /** What an eligible response is granted, and that its header fits with a date added. */
  lemma GrantIs(r: Response, limit: nat, started: int, date: string)
    requires Parsed(r) && limit <= 3600 && Eligible(r, limit, started) && |date| == 29
    ensures r.length.Some? && r.length.value >= 0
    ensures Granted(r, limit, started, Remaining(r, PolicyOf(r), limit, started), InitialAge(r, started),
        r.length.value)
    ensures FullSize(Dressed(r, date)) <= MAX_HEADERS + DATE_BYTES
  {
    hide Remaining, InitialAge, Storable;
    DateFits(r.fields, date);
  }

  /** An entry that costs what the source counts is charged. */
  lemma ChargedFor(e: Entry, size: nat)
    requires e.cost == |e.body| + size + |e.key| + OVERHEAD && size <= FullSize(e.header) <= MAX_HEADERS + DATE_BYTES
    requires if FullSize(e.header) <= MAX_HEADERS then size == FullSize(e.header) else size > MAX_HEADERS
    ensures Charged(e)
  {
    hide FullSize;
  }

  /** An entry made of a grant is grounded. */
  lemma GrantGrounds(e: Entry, ttl: int, expected: nat)
    requires Granted(e.origin.response, e.origin.limit, e.stored, ttl, e.age, expected) && e.expires == e.stored + ttl
    requires e.header == Dressed(e.origin.response, e.origin.date) && Charged(e) && |e.body| == expected
    ensures Grounded(e) && expected <= MAX_BODY
  {
    hide Remaining, InitialAge, Storable, Charged;
  }

  lemma DateFits(fields: seq<Field>, date: string)
    requires |date| == 29
    ensures FullSize(Replaced(fields, Field("Date", [date]))) <= FullSize(fields) + DATE_BYTES
  {
    hide FullSize;
    ReplacedSize(fields, Field("Date", [date]));
    assert ValuesSize([date]) == 93;
  }

  /** Body, header and key bounds keep every capture within its reservation. */
  lemma CostFits(body: nat, header: nat, key: nat)
    requires body <= MAX_BODY && header <= MAX_HEADERS + DATE_BYTES && key <= MAX_KEY
    ensures body + header + key + OVERHEAD <= RESERVATION
  {
  }
}
