/** Who owes the response store what: every reservation has the request that will give it back,
    every pin its reader, and every entry the response that grounds its lifetime. */
module ResponseLedger {
  import opened Durability
  import opened ResponseEligibility
  import opened ResponseStore

  /** Whoever owes the store a `finish` or a `release`. */
  type Request = nat

  // ---------- Freshness ----------

  const DATE_BYTES := 161

  /** The header of a response with a `Date` if it had none. */
  function Dressed(r: Response, date: string): seq<Field> {
    if r.date.None? then Replaced(r.fields, Field("Date", [date])) else r.fields
  }

  /** An entry is charged for its body, header and key and a fixed overhead.  A header that only the
      added date takes beyond the limit may be charged for less, but for more than the limit. */
  ghost predicate Charged(e: Entry) {
    var full, rest := FullSize(e.header), |e.body| + |e.key| + OVERHEAD;
    && full <= MAX_HEADERS + DATE_BYTES && e.cost <= rest + full
    && (if full <= MAX_HEADERS then e.cost == rest + full else e.cost > rest + MAX_HEADERS)
  }

  /** What an entry is charged covers the bytes that it keeps. */
  lemma ChargeCovers(e: Entry)
    requires Charged(e)
    ensures HeldBytes(e) <= e.cost
  {
    hide FullSize, RawSize;
    FullSizeCovers(e.header);
  }

  lemma {:induction false} TotalCharge(t: Table, n: Handle)
    requires forall h :: h in t ==> Charged(t[h])
    ensures Total(t, Held, n) <= Total(t, Cost, n)
  {
    hide Charged, HeldBytes;
    if n > 0 {
      TotalCharge(t, n - 1);
      if n - 1 in t { ChargeCovers(t[n - 1]); }
    }
  }

  /** An entry expires as its response was granted, shows its header and is charged for it. */
  ghost predicate Grounded(e: Entry) {
    var r, p, limit := e.origin.response, PolicyOf(e.origin.response), e.origin.limit;
    && Parsed(r) && limit <= 3600 && Eligible(r, limit, e.stored)
    && e.expires == e.stored + Remaining(r, p, limit, e.stored) && e.age == InitialAge(r, e.stored)
    && e.header == Dressed(r, e.origin.date) && Charged(e) && r.length == Some(|e.body|)
  }

  ghost predicate AllGrounded(t: Table) {
    forall h :: h in t ==> Grounded(t[h])
  }

  /** What a served entry must meet: its reported age is below the lifetime, hence below the
      handler's limit and below s-maxage or else max-age; it has not passed Expires when that
      governs; and by the standard's own arithmetic, wherever the body's delivery fell, it exceeds
      the lifetime by less than the second that header dates cannot express. */
  ghost predicate FreshAt(e: Entry, now: int) {
    var r, p := e.origin.response, PolicyOf(e.origin.response);
    var lifetime := Lifetime(e.origin.limit, p);
    && e.age * SECOND + (now - e.stored) < lifetime * SECOND && lifetime <= e.origin.limit
    && (p.sharedAge >= 0 ==> lifetime <= p.sharedAge)
    && (p.sharedAge < 0 && p.maxAge >= 0 ==> lifetime <= p.maxAge)
    && (p.sharedAge < 0 && p.maxAge < 0 && r.expires.Some? ==> r.expires.value.Some? && now < r.expires.value.value)
    && (forall received :: e.stored <= received <= now ==>
          CurrentAge(r, e.stored, received, now) < (lifetime + 1) * SECOND)
  }

  /** An entry that has not expired is fresh. */
  lemma UnexpiredIsFresh(e: Entry, now: int)
    requires Grounded(e) && e.stored <= now < e.expires
    ensures FreshAt(e, now)
  {
    hide Storable, FullSize;
    forall received | e.stored <= received <= now
      ensures CurrentAge(e.origin.response, e.stored, received, now) <
                (Lifetime(e.origin.limit, PolicyOf(e.origin.response)) + 1) * SECOND
    {
      GrantIsFresh(e.origin.response, e.origin.limit, e.stored, received, now);
    }
    GrantIsFresh(e.origin.response, e.origin.limit, e.stored, now, now);
  }

  /** The header that is served: every field of the granted response, its own date or the date of its
      request, and nothing else. */
  lemma HeaderIsShown(e: Entry)
    requires Grounded(e)
    ensures
      var r, date := e.origin.response, Field("Date", [e.origin.date]);
      && (r.date.Some? ==> e.header == r.fields)
      && (r.date.None? ==> date in e.header)
      && (forall f :: f in r.fields && f.name != "Date" ==> f in e.header)
      && (forall f :: f in e.header ==> f in r.fields || (r.date.None? && f == date))
  {
    hide Eligible, Remaining, InitialAge, Charged, Replaced;
    ReplacedIs(e.origin.response.fields, Field("Date", [e.origin.date]));
  }

  lemma RetainedIsGrounded(t: Table, keep: set<Handle>)
    requires AllGrounded(t)
    ensures AllGrounded(Retained(t, keep))
  {
    hide Eligible, Remaining, InitialAge;
  }

  lemma EntryIsGrounded(t: Table, fills: int, readers: int, owners: set<Request>, holders: map<Request, Handle>,
                        h: Handle)
    requires Owed(t, fills, readers, owners, holders) && h in t
    ensures Grounded(t[h])
  {
  }

  lemma OneIsGrounded(t: Table, h: Handle, refs: nat)
    requires AllGrounded(t) && h in t
    ensures AllGrounded(t[h := t[h].(refs := refs)]) && AllGrounded(t - {h})
  {
  }

  lemma InstalledIsGrounded(t: Table, h: Handle, e: Entry)
    requires AllGrounded(t) && Grounded(e)
    ensures AllGrounded(t[h := e])
  {
  }

  // ---------- Pins ----------

  function Pins(holders: map<Request, Handle>, h: Handle): set<Request> {
    set x | x in holders && holders[x] == h
  }

  /** Every pin of an entry has its holder. */
  ghost predicate Pinned(t: Table, holders: map<Request, Handle>) {
    && (forall x :: x in holders ==> holders[x] in t)
    && (forall h :: h in t ==> t[h].refs == |Pins(holders, h)|)
  }

  /** Every reservation and every pin has someone to give it back, and every entry its grounds. */
  ghost predicate Owed(t: Table, fills: int, readers: int, owners: set<Request>, holders: map<Request, Handle>) {
    |owners| == fills && |holders| == readers && Pinned(t, holders) && AllGrounded(t)
  }

  lemma OwedRetained(t: Table, keep: set<Handle>, fills: int, readers: int, owners: set<Request>,
                     holders: map<Request, Handle>)
    requires Owed(t, fills, readers, owners, holders)
    ensures Owed(Retained(t, keep), fills, readers, owners, holders)
  {
    hide Pinned, AllGrounded, Retained;
    RetainedIsPinned(t, keep, holders);
    RetainedIsGrounded(t, keep);
  }

  lemma OwedPinned(t: Table, fills: int, readers: int, owners: set<Request>, holders: map<Request, Handle>, x: Request,
                   h: Handle)
    requires Owed(t, fills, readers, owners, holders) && x !in holders && h in t
    ensures Owed(t[h := t[h].(refs := t[h].refs + 1)], fills, readers + 1, owners, holders[x := h])
    ensures Grounded(t[h].(refs := t[h].refs + 1))
  {
    hide Pinned, AllGrounded, Grounded;
    PinnedMore(t, holders, x, h);
    OneIsGrounded(t, h, t[h].refs + 1);
    EntryIsGrounded(t[h := t[h].(refs := t[h].refs + 1)], fills, readers + 1, owners, holders[x := h], h);
  }

  lemma OwedUnpinned(t: Table, fills: int, readers: int, owners: set<Request>, holders: map<Request, Handle>,
                     x: Request)
    requires Owed(t, fills, readers, owners, holders) && x in holders
    ensures holders[x] in t && t[holders[x]].refs > 0
    ensures
      var h := holders[x];
      && Owed(t[h := t[h].(refs := t[h].refs - 1)], fills, readers - 1, owners, holders - {x})
      && (t[h].refs == 1 ==> Owed(t - {h}, fills, readers - 1, owners, holders - {x}))
  {
    hide Pinned, AllGrounded;
    PinnedLess(t, holders, x);
    OneIsGrounded(t, holders[x], t[holders[x]].refs - 1);
  }

  lemma OwedSlot(t: Table, fills: int, readers: int, owners: set<Request>, holders: map<Request, Handle>, x: Request)
    requires Owed(t, fills, readers, owners, holders)
    ensures x !in owners ==> Owed(t, fills + 1, readers, owners + {x}, holders)
    ensures x in owners ==> fills > 0 && Owed(t, fills - 1, readers, owners - {x}, holders)
  {
    hide Pinned, AllGrounded;
  }

  lemma OwedInstalled(t: Table, fills: int, readers: int, owners: set<Request>, holders: map<Request, Handle>,
                      h: Handle,
                      e: Entry)
    requires Owed(t, fills, readers, owners, holders) && h !in t && e.refs == 0 && Grounded(e)
    ensures Owed(t[h := e], fills, readers, owners, holders)
  {
    hide Pinned, AllGrounded, Grounded;
    InstalledIsPinned(t, holders, h, e);
    InstalledIsGrounded(t, h, e);
  }

  lemma PinnedMore(t: Table, holders: map<Request, Handle>, x: Request, h: Handle)
    requires Pinned(t, holders) && x !in holders && h in t
    ensures Pinned(t[h := t[h].(refs := t[h].refs + 1)], holders[x := h]) && |holders[x := h]| == |holders| + 1
  {
    hide Pins;
    var more, u := holders[x := h], t[h := t[h].(refs := t[h].refs + 1)];
    MoreHolders(holders, x, h);
    forall g | g in u ensures u[g].refs == |Pins(more, g)| {
      PinsMore(holders, x, h, g);
    }
  }

  lemma MoreHolders(holders: map<Request, Handle>, x: Request, h: Handle)
    requires x !in holders
    ensures |holders[x := h]| == |holders| + 1
  {
    assert holders[x := h].Keys == holders.Keys + {x};
    assert |holders[x := h].Keys| == |holders[x := h]| && |holders.Keys| == |holders|;
  }

  lemma PinsMore(holders: map<Request, Handle>, x: Request, h: Handle, g: Handle)
    requires x !in holders
    ensures |Pins(holders[x := h], g)| == |Pins(holders, g)| + if g == h then 1 else 0
  {
    if g == h {
      assert Pins(holders[x := h], g) == Pins(holders, g) + {x};
    } else {
      assert Pins(holders[x := h], g) == Pins(holders, g);
    }
  }

  lemma PinsLess(holders: map<Request, Handle>, x: Request, g: Handle)
    requires x in holders
    ensures |Pins(holders - {x}, g)| == |Pins(holders, g)| - if g == holders[x] then 1 else 0
  {
    if g == holders[x] {
      assert Pins(holders - {x}, g) == Pins(holders, g) - {x};
    } else {
      assert Pins(holders - {x}, g) == Pins(holders, g);
    }
  }

  lemma PinnedLess(t: Table, holders: map<Request, Handle>, x: Request)
    requires Pinned(t, holders) && x in holders
    ensures holders[x] in t && t[holders[x]].refs > 0 && |holders - {x}| == |holders| - 1
    ensures
      var h, less := holders[x], holders - {x};
      && Pinned(t[h := t[h].(refs := t[h].refs - 1)], less)
      && (t[h].refs == 1 ==> Pinned(t - {h}, less))
  {
    hide Pins;
    var h, less := holders[x], holders - {x};
    PinsHold(holders, x);
    FewerHolders(holders, x);
    forall g | g in t ensures |Pins(less, g)| == t[g].refs - if g == h then 1 else 0 {
      PinsLess(holders, x, g);
    }
    if t[h].refs == 1 { PinnedFreed(t, less, h); }
  }

  lemma PinsHold(holders: map<Request, Handle>, x: Request)
    requires x in holders
    ensures x in Pins(holders, holders[x])
  {
  }

  /** An entry that nobody holds may go. */
  lemma PinnedFreed(t: Table, holders: map<Request, Handle>, h: Handle)
    requires h in t && |Pins(holders, h)| == 0
    requires (forall x :: x in holders ==> holders[x] in t)
    requires forall g :: g in t && g != h ==> t[g].refs == |Pins(holders, g)|
    ensures Pinned(t - {h}, holders)
  {
    hide Pins;
    forall x | x in holders ensures holders[x] != h {
      PinsHold(holders, x);
      assert holders[x] == h ==> x in Pins(holders, h);
    }
  }

  lemma FewerHolders(holders: map<Request, Handle>, x: Request)
    requires x in holders
    ensures |holders - {x}| == |holders| - 1
  {
    assert (holders - {x}).Keys == holders.Keys - {x};
    assert |(holders - {x}).Keys| == |holders - {x}| && |holders.Keys| == |holders|;
  }

  lemma RetainedIsPinned(t: Table, keep: set<Handle>, holders: map<Request, Handle>)
    requires Pinned(t, holders)
    ensures Pinned(Retained(t, keep), holders)
  {
    forall x | x in holders ensures holders[x] in Retained(t, keep) {
      assert x in Pins(holders, holders[x]);
    }
  }

  lemma InstalledIsPinned(t: Table, holders: map<Request, Handle>, h: Handle, e: Entry)
    requires Pinned(t, holders) && h !in t && e.refs == 0
    ensures Pinned(t[h := e], holders)
  {
    assert Pins(holders, h) == {};
  }

  // ---------- What entries become ----------

  /** Entries only disappear, become invisible, or change their pins. */
  ghost predicate OnlyFewer(t: Table, u: Table) {
    forall h :: h in u ==> h in t && u[h] == t[h].(refs := u[h].refs, visible := u[h].visible) &&
                           (u[h].visible ==> t[h].visible)
  }

  lemma FewerSame(t: Table)
    ensures OnlyFewer(t, t)
  {
  }

  lemma FewerRetained(t: Table, keep: set<Handle>)
    ensures OnlyFewer(t, Retained(t, keep))
  {
  }

  lemma FewerPinned(t: Table, h: Handle, refs: nat)
    requires h in t
    ensures OnlyFewer(t, t[h := t[h].(refs := refs)]) && OnlyFewer(t, t - {h})
  {
  }

  lemma Shown(entries: map<string, Handle>, lru: seq<Handle>, t: Table)
    requires Indexed(entries, lru, t)
    ensures forall k :: k in entries ==> entries[k] in t
  {
  }

  /** An entry for the key is visible and has not expired. */
  ghost predicate Findable(t: Table, key: string, now: int) {
    exists h :: h in t && t[h].visible && t[h].key == key && now < t[h].expires
  }

  lemma Finds(entries: map<string, Handle>, lru: seq<Handle>, t: Table, key: string, now: int)
    requires Indexed(entries, lru, t)
    ensures Findable(t, key, now) <==> key in entries && entries[key] in t && now < t[entries[key]].expires
  {
  }

  /** The store together with what is owed to it. */
  class SharedCache {
    const store: Store
    /** Who holds a reservation, and who pins which entry. */
    ghost var owners: set<Request>
    ghost var holders: map<Request, Handle>

    ghost predicate Valid()
      reads this, store
    {
      store.Valid() && Owed(store.table, store.fills, store.readers, owners, holders)
    }

    constructor ()
      ensures Valid() && fresh(store) && store.table == map[] && owners == {} && holders == map[]
      ensures store.bytes == store.count == store.fills == store.readers == 0
    {
      store := new Store();
      owners, holders := {}, map[];
    }

    /** What a lookup finds, and has room to send. */
    ghost predicate Answers(key: string, now: int)
      reads store
    {
      Findable(store.table, key, now) && store.readers < MAX_READERS && store.bytes + READER <= MAX_BYTES
    }

    lemma AnswersIff(key: string, now: int)
      requires store.Valid()
      ensures Answers(key, now) <==> store.Answers(key, now)
    {
      Finds(store.entries, store.lru, store.table, key, now);
    }

    /** No slot is free, or nothing is left to evict for one. */
    ghost predicate Crammed()
      reads store
    {
      store.fills >= MAX_FILLS || (store.lru == [] && NoRoom(store.bytes, store.count))
    }

    /** `get`: the hit is fresh, and pinned for the request. */
    method Get(key: string, now: int, ghost request: Request) returns (r: Option<Handle>)
      requires Valid() && request !in holders
      modifies this`holders, store
      ensures Valid() && store.fills == old(store.fills)
      ensures holders == if r == None then old(holders) else old(holders)[request := r.value]
      ensures r != None ==>
        && r.value in store.table && store.table[r.value].visible && store.table[r.value].key == key
        && (store.table[r.value].stored <= now ==> FreshAt(store.table[r.value], now))
      ensures OnlyFewer(old(store.table), store.table)
      ensures r != None <==> old(Answers(key, now))
    {
      hide Owed, FreshAt, Indexed, Live, Accounted, Removed, Members, Retained, OnlyFewer, Grounded, Answers,
        Store.Answers;
      AnswersIff(key, now);
      ghost var t := store.table;
      ghost var shown := if key in store.entries then Members(store.lru) - {store.entries[key]} else {};
      Shown(store.entries, store.lru, store.table);
      r := store.Get(key, now);
      FewerRetained(t, shown);
      FewerSame(t);
      if r == None {
        OwedRetained(t, shown, store.fills, store.readers, owners, holders);
      } else {
        OwedPinned(t, store.fills, old(store.readers), owners, holders, request, r.value);
        FewerPinned(t, r.value, t[r.value].refs + 1);
        holders := holders[request := r.value];
        if store.table[r.value].stored <= now { UnexpiredIsFresh(store.table[r.value], now); }
      }
    }

    /** `release` by whoever holds the pin. */
    method Release(h: Handle, ghost request: Request)
      requires Valid() && request in holders && holders[request] == h
      modifies this`holders, store
      ensures Valid() && holders == old(holders) - {request} && store.fills == old(store.fills)
      ensures OnlyFewer(old(store.table), store.table)
    {
      hide Owed, Indexed, Live, Accounted, OnlyFewer;
      ghost var t := store.table;
      OwedUnpinned(t, store.fills, store.readers, owners, holders, request);
      FewerPinned(t, h, t[h].refs - 1);
      store.Release(h);
      holders := holders - {request};
    }

    /** `reserve` for a request that holds none. */
    method Reserve(now: int, ghost request: Request) returns (ok: bool)
      requires Valid() && request !in owners
      modifies this`owners, store
      ensures Valid() && owners == if ok then old(owners) + {request} else old(owners)
      ensures !ok ==> Crammed()
      ensures OnlyFewer(old(store.table), store.table)
    {
      hide Owed, Indexed, Live, Accounted, Retained, Members, Unexpired, Minimal, NoRoom, OnlyFewer;
      ghost var t := store.table;
      ok := store.Reserve(now);
      FewerRetained(t, Members(store.lru));
      FewerSame(t);
      OwedRetained(t, Members(store.lru), old(store.fills), store.readers, owners, holders);
      OwedSlot(store.table, old(store.fills), store.readers, owners, holders, request);
      if ok { owners := owners + {request}; }
    }

    /** `finish` by whoever holds the reservation: an entry within it is always installed. */
    method Finish(entry: Option<Entry>, ghost request: Request) returns (installed: Option<Handle>)
      requires Valid() && request in owners
      requires entry.Some? ==> entry.value.refs == 0 && entry.value.visible && Grounded(entry.value)
      modifies this`owners, store
      ensures Valid() && owners == old(owners) - {request}
      ensures entry == None ==> installed == None && store.table == old(store.table)
      ensures entry.Some? && entry.value.cost <= RESERVATION ==> installed.Some?
      ensures installed.Some? ==> installed.value in store.table && store.table[installed.value] == entry.value
      ensures OnlyFewer(old(store.table), if installed.Some? then store.table - {installed.value} else store.table)
    {
      hide Owed, Indexed, Live, Accounted, Retained, Members, Grounded, WithoutKey, OnlyFewer;
      ghost var t, fills := store.table, store.fills;
      OwedSlot(t, fills, store.readers, owners, holders, request);
      installed := store.Finish(entry);
      owners := owners - {request};
      FewerSame(t);
      if entry.Some? {
        ghost var keep := Members(WithoutKey(old(store.lru), old(store.entries), entry.value.key));
        FewerRetained(t, keep);
        OwedRetained(t, keep, fills - 1, store.readers, owners, holders);
        if installed.Some? {
          OwedInstalled(store.table - {installed.value}, fills - 1, store.readers, owners, holders, installed.value,
              entry.value);
          assert (store.table - {installed.value})[installed.value := entry.value] == store.table;
        }
      }
    }

    /** `invalidate` neither pays nor incurs a debt. */
    method Invalidate(namespace: nat)
      requires Valid()
      modifies store
      ensures Valid() && store.fills == old(store.fills) && store.readers == old(store.readers)
      ensures store.table ==
        Retained(old(store.table), OfOthers(old(store.table), Members(old(store.lru)), namespace))
      ensures forall h :: h in store.table && store.table[h].visible ==> store.table[h].namespace != namespace
      ensures OnlyFewer(old(store.table), store.table)
    {
      hide Owed, Indexed, Live, Accounted, Retained, Members, OfOthers, OnlyFewer;
      ghost var t := store.table;
      store.Invalidate(namespace);
      FewerRetained(t, OfOthers(t, Members(old(store.lru)), namespace));
      OwedRetained(t, OfOthers(t, Members(old(store.lru)), namespace), store.fills, store.readers, owners, holders);
    }

    /** All entries, visible or still being sent, together with every open reservation and every
        reader's share keep within the limit in real bytes. */
    lemma BytesAreBounded()
      requires Valid()
      ensures Total(store.table, Held, store.next) + 1090560 * store.fills + 17408 * store.readers <= MAX_BYTES
    {
      hide Indexed, Live, Eligible, Remaining, InitialAge, Dressed, Pinned, Charged;
      TotalCharge(store.table, store.next);
    }

    /** With nothing owed and nothing visible the store is empty and its counters are zero. */
    lemma Drains()
      requires Valid() && owners == {} && holders == map[]
      requires forall h :: h in store.table ==> !store.table[h].visible
      ensures store.table == map[] && store.bytes == 0 && store.count == 0
    {
      hide Pinned, AllGrounded, Indexed;
      Drained(store.table, store.next, store.bytes, store.count);
    }
  }
}
