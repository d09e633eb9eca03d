/** The process-wide response store: an LRU of entries with pinned readers, in-flight
    reservations and entries retired while they are still being sent. */
module ResponseStore {
  import opened Durability
  import opened ResponseEligibility

  type Byte = bv8

  /** Entry objects, named by handles as readers hold them. */
  type Handle = nat

  /** The response whose header was granted, the handler's limit, and the date of its request. */
  datatype Origin = Origin(response: Response, limit: nat, date: string)

  datatype Entry = Entry(
    namespace: nat,
    key: string,
    header: seq<Field>,
    body: seq<Byte>,
    expires: int,
    stored: int,
    age: int,
    cost: nat,
    refs: nat,
    visible: bool,
    origin: Origin)

  type Table = map<Handle, Entry>

  lemma Charges()
    ensures RESERVATION == 1090560 && READER == 17408
  {
  }

  // ---------- Sums over the live entries ----------

  /** The bytes that an entry really keeps. */
  function HeldBytes(e: Entry): nat {
    |e.body| + RawSize(e.header) + |e.key|
  }

  datatype Weight = Cost | Refs | One | Held

  function Of(w: Weight, e: Entry): nat {
    match w
    case Cost => e.cost
    case Refs => e.refs
    case One => 1
    case Held => HeldBytes(e)
  }

  function At(t: Table, w: Weight, h: Handle): nat {
    if h in t then Of(w, t[h]) else 0
  }

  /** The sum over the live entries with handles below `n`. */
  ghost function Total(t: Table, w: Weight, n: Handle): nat {
    if n == 0 then 0 else Total(t, w, n - 1) + At(t, w, n - 1)
  }

  /** Tables that agree but for one handle differ by what stands there. */
  lemma {:induction false} TotalDiffers(t: Table, u: Table, w: Weight, n: Handle, h: Handle)
    requires h < n
    requires forall x: Handle :: x < n && x != h ==> At(t, w, x) == At(u, w, x)
    ensures Total(u, w, n) - At(u, w, h) == Total(t, w, n) - At(t, w, h)
  {
    if n - 1 == h {
      TotalAgrees(t, u, w, n - 1);
    } else {
      TotalDiffers(t, u, w, n - 1, h);
    }
  }

  lemma {:induction false} TotalAgrees(t: Table, u: Table, w: Weight, n: Handle)
    requires forall x: Handle :: x < n ==> At(t, w, x) == At(u, w, x)
    ensures Total(u, w, n) == Total(t, w, n)
  {
    if n > 0 { TotalAgrees(t, u, w, n - 1); }
  }

  lemma {:induction false} TotalAtMost(t: Table, w: Weight, n: Handle, h: Handle)
    requires h < n
    ensures At(t, w, h) <= Total(t, w, n)
  {
    if h < n - 1 { TotalAtMost(t, w, n - 1, h); }
  }

  /** A sum is zero exactly when every summand is. */
  lemma {:induction false} TotalZero(t: Table, w: Weight, n: Handle)
    ensures Total(t, w, n) == 0 <==> forall x: Handle :: x < n ==> At(t, w, x) == 0
  {
    if n > 0 { TotalZero(t, w, n - 1); }
  }

  // ---------- What a retirement leaves ----------

  /** Of the live entries, those in `keep` stay as they are; the others become invisible and
      live on only while a reader pins them. */
  function Retained(t: Table, keep: set<Handle>): Table {
    map h | h in t && (h in keep || t[h].refs > 0) :: if h in keep then t[h] else t[h].(visible := false)
  }

  function Members(s: seq<Handle>): set<Handle> {
    set h | h in s
  }

  ghost predicate Distinct(s: seq<Handle>) {
    forall i, j :: 0 <= i < j < |s| ==> s[i] != s[j]
  }

  /** The list without `h`. */
  function Removed(s: seq<Handle>, h: Handle): (r: seq<Handle>)
    ensures forall x :: x in r <==> x in s && x != h
    ensures Distinct(s) ==> Distinct(r)
  {
    if s == [] then [] else
      var r := Removed(s[1..], h);
      assert Distinct(s) ==> Distinct(s[1..]) && s[0] !in s[1..];
      if s[0] == h then r else [s[0]] + r
  }

  lemma {:induction false} RemovedAt(s: seq<Handle>, i: nat)
    requires Distinct(s) && i < |s|
    ensures Removed(s, s[i]) == s[..i] + s[i + 1..]
  {
    var tail := s[1..];
    if i == 0 {
      assert s[0] !in tail;
      RemovedAbsent(tail, s[0]);
    } else {
      assert Distinct(tail) && s[i] == tail[i - 1] && s[0] != s[i];
      RemovedAt(tail, i - 1);
      calc {
        Removed(s, s[i]);
        [s[0]] + Removed(tail, s[i]);
        [s[0]] + (tail[..i - 1] + tail[i..]);
        { assert s[..i] == [s[0]] + tail[..i - 1] && s[i + 1..] == tail[i..]; }
        s[..i] + s[i + 1..];
      }
    }
  }

  lemma RemovedAbsent(s: seq<Handle>, h: Handle)
    requires h !in s
    ensures Removed(s, h) == s
  {
    if s != [] { RemovedAbsent(s[1..], h); }
  }

  /** The entries of the list that have not expired, in their order. */
  function Unexpired(s: seq<Handle>, t: Table, now: int): seq<Handle>
    requires forall h :: h in s ==> h in t
  {
    if s == [] then [] else
      var rest := Unexpired(s[1..], t, now);
      if t[s[0]].expires <= now then rest else [s[0]] + rest
  }

  /** One step of the scan from the back: the place reached stays or goes. */
  lemma ScanStep(s: seq<Handle>, t: Table, i: nat, now: int, current: seq<Handle>)
    requires i < |s| && forall h :: h in s ==> h in t
    requires current == s[..i + 1] + Unexpired(s[i + 1..], t, now)
    ensures i < |current| && current[i] == s[i]
    ensures (if t[s[i]].expires <= now then current[..i] + current[i + 1..] else current) ==
            s[..i] + Unexpired(s[i..], t, now)
  {
    assert s[i..][1..] == s[i + 1..];
    assert current == s[..i] + [s[i]] + Unexpired(s[i + 1..], t, now);
  }

  lemma KeptAsWas(t: Table, keep: set<Handle>, h: Handle)
    requires h in keep && h in Retained(t, keep)
    ensures h in t && Retained(t, keep)[h] == t[h]
  {
  }

  lemma Listed(entries: map<string, Handle>, lru: seq<Handle>, t: Table)
    requires Indexed(entries, lru, t)
    ensures Distinct(lru) && forall h :: h in lru ==> h in t && t[h].visible
  {
  }

  lemma Named(entries: map<string, Handle>, lru: seq<Handle>, t: Table)
    requires Indexed(entries, lru, t)
    ensures forall k :: k in entries ==> entries[k] in t && t[entries[k]].visible && t[entries[k]].key == k
  {
  }

  lemma Unused(t: Table, next: Handle)
    requires Live(t, next)
    ensures next !in t
  {
  }

  /** Retiring in two rounds is retiring once. */
  lemma RetainedTwice(t: Table, a: set<Handle>, b: set<Handle>)
    requires b <= a
    ensures Retained(Retained(t, a), b) == Retained(t, b)
  {
    assert Retained(Retained(t, a), b).Keys == Retained(t, b).Keys;
  }

  lemma RetainedAll(entries: map<string, Handle>, lru: seq<Handle>, t: Table, next: Handle)
    requires Indexed(entries, lru, t) && Live(t, next)
    ensures Retained(t, Members(lru)) == t
  {
    assert forall h :: h in t ==> (h in Members(lru) <==> t[h].visible);
    assert Retained(t, Members(lru)).Keys == t.Keys;
  }

  // ---------- The representation invariant, part by part ----------

  /** `entries` and `lru` list exactly the visible entries. */
  ghost predicate Indexed(entries: map<string, Handle>, lru: seq<Handle>, t: Table) {
    && (forall k :: k in entries ==> entries[k] in t && t[entries[k]].visible && t[entries[k]].key == k)
    && (forall h :: h in t && t[h].visible ==> t[h].key in entries && entries[t[h].key] == h)
    && (forall h :: h in lru <==> h in t && t[h].visible)
    && Distinct(lru)
  }

  /** The counters are exactly the live entries, the open reservations and the readers.
      The factors are RESERVATION and READER, written out to keep the sums linear. */
  ghost predicate Accounted(t: Table, next: Handle, bytes: int, count: int, fills: int, readers: int) {
    && bytes == Total(t, Cost, next) + 1090560 * fills + 17408 * readers
    && count == Total(t, One, next) + fills
    && readers == Total(t, Refs, next)
  }

  /** Entries are live while visible or pinned; handles not yet given out are free. */
  ghost predicate Live(t: Table, next: Handle) {
    forall h :: h in t ==> (t[h].visible || t[h].refs > 0) && h < next
  }

  /** What retiring an entry gives back at once. */
  function FreedBytes(e: Entry): nat { if e.refs == 0 then e.cost else 0 }

  function FreedSlots(e: Entry): nat { if e.refs == 0 then 1 else 0 }

  predicate NoRoom(bytes: int, count: int) {
    bytes + RESERVATION > MAX_BYTES || count >= MAX_ENTRIES
  }

  /** The next entry that was given up would not have left room for a reservation. */
  ghost predicate Minimal(kept: seq<Handle>, from: seq<Handle>, t: Table, bytes: int, count: int) {
    |kept| < |from| ==>
      && from[|kept|] in t
      && var last := t[from[|kept|]];
         NoRoom(bytes + FreedBytes(last), count + FreedSlots(last))
  }

  /** An entry made invisible, or dropped with its last use. */
  function RetiredTable(t: Table, h: Handle): Table
    requires h in t
  {
    if t[h].refs == 0 then t - {h} else t[h := t[h].(visible := false)]
  }

  lemma RetiredIsRetained(entries: map<string, Handle>, lru: seq<Handle>, t: Table, next: Handle, h: Handle)
    requires Indexed(entries, lru, t) && Live(t, next) && h in t && t[h].visible
    ensures RetiredTable(t, h) == Retained(t, Members(lru) - {h})
    ensures Live(RetiredTable(t, h), next)
    ensures Indexed(entries - {t[h].key}, Removed(lru, h), RetiredTable(t, h))
  {
    var r, keep := RetiredTable(t, h), Members(lru) - {h};
    assert forall x :: x in t && x != h ==> (x in keep <==> t[x].visible);
    assert r.Keys == Retained(t, keep).Keys;
  }

  lemma RetiredIsAccounted(t: Table, next: Handle, bytes: int, count: int, fills: int, readers: int, h: Handle)
    requires Live(t, next) && Accounted(t, next, bytes, count, fills, readers) && h in t
    ensures
      if t[h].refs == 0
      then Accounted(RetiredTable(t, h), next, bytes - t[h].cost, count - 1, fills, readers)
      else Accounted(RetiredTable(t, h), next, bytes, count, fills, readers)
  {
    TotalDiffers(t, RetiredTable(t, h), Cost, next, h);
    TotalDiffers(t, RetiredTable(t, h), Refs, next, h);
    TotalDiffers(t, RetiredTable(t, h), One, next, h);
  }

  /** A change of one pin count, paid for by the reader overhead. */
  lemma PinnedIsAccounted(t: Table, next: Handle, bytes: int, count: int, fills: int, readers: int, h: Handle,
                          refs: nat)
    requires Live(t, next) && Accounted(t, next, bytes, count, fills, readers) && h in t
    ensures
      var more := refs - t[h].refs;
      Accounted(t[h := t[h].(refs := refs)], next, bytes + 17408 * more, count, fills, readers + more)
    ensures t[h].refs <= readers
  {
    TotalAtMost(t, Refs, next, h);
    var u := t[h := t[h].(refs := refs)];
    TotalDiffers(t, u, Cost, next, h);
    TotalDiffers(t, u, Refs, next, h);
    TotalDiffers(t, u, One, next, h);
  }

  /** Neither a pin count nor the place in the list touches the index. */
  lemma PinnedIsIndexed(entries: map<string, Handle>, lru: seq<Handle>, t: Table, next: Handle, h: Handle, refs: nat)
    requires Indexed(entries, lru, t) && Live(t, next) && h in t
    requires t[h].visible || refs > 0
    ensures Indexed(entries, lru, t[h := t[h].(refs := refs)]) && Live(t[h := t[h].(refs := refs)], next)
    ensures t[h].visible ==> Indexed(entries, [h] + Removed(lru, h), t[h := t[h].(refs := refs)])
  {
    var u := t[h := t[h].(refs := refs)];
    if t[h].visible {
      var moved := [h] + Removed(lru, h);
      assert forall x :: x in moved <==> x in lru;
    }
  }

  /** The last reader of a retired entry drops it. */
  lemma Dropped(entries: map<string, Handle>, lru: seq<Handle>, t: Table, next: Handle,
                bytes: int, count: int, fills: int, readers: int, h: Handle)
    requires Indexed(entries, lru, t) && Live(t, next) && Accounted(t, next, bytes, count, fills, readers)
    requires h in t && !t[h].visible && t[h].refs == 1
    ensures Indexed(entries, lru, t - {h}) && Live(t - {h}, next)
    ensures Accounted(t - {h}, next, bytes - READER - t[h].cost, count - 1, fills, readers - 1)
    ensures readers >= 1
  {
    TotalAtMost(t, Refs, next, h);
    var u := t - {h};
    TotalDiffers(t, u, Cost, next, h);
    TotalDiffers(t, u, Refs, next, h);
    TotalDiffers(t, u, One, next, h);
  }

  lemma ReservedIsAccounted(t: Table, next: Handle, bytes: int, count: int, fills: int, readers: int, more: int)
    requires Accounted(t, next, bytes, count, fills, readers)
    ensures Accounted(t, next, bytes + 1090560 * more, count + more, fills + more, readers)
  {
  }

  /** A new entry in front of the list. */
  lemma Installed(entries: map<string, Handle>, lru: seq<Handle>, t: Table, next: Handle,
                  bytes: int, count: int, fills: int, readers: int, e: Entry)
    requires Indexed(entries, lru, t) && Live(t, next) && Accounted(t, next, bytes, count, fills, readers)
    requires e.key !in entries && e.refs == 0 && e.visible
    ensures Indexed(entries[e.key := next], [next] + lru, t[next := e]) && Live(t[next := e], next + 1)
    ensures Accounted(t[next := e], next + 1, bytes + e.cost, count + 1, fills, readers)
  {
    var u, front := t[next := e], [next] + lru;
    assert forall h :: h in lru ==> h < next;
    forall i, j | 0 <= i < j < |front| ensures front[i] != front[j] {
      assert front[j] == lru[j - 1] && lru[j - 1] in lru;
      if i > 0 { assert front[i] == lru[i - 1]; }
    }
    assert forall h :: h in front <==> h == next || h in lru;
    TotalAgrees(t, u, Cost, next);
    TotalAgrees(t, u, Refs, next);
    TotalAgrees(t, u, One, next);
  }

  /** With no request in flight and nothing visible, the counters are back at zero. */
  lemma Drained(t: Table, next: Handle, bytes: int, count: int)
    requires Live(t, next) && Accounted(t, next, bytes, count, 0, 0)
    requires forall h :: h in t ==> !t[h].visible
    ensures t == map[] && bytes == 0 && count == 0
  {
    TotalZero(t, Refs, next);
    assert forall h :: h in t ==> At(t, Refs, h) == t[h].refs;
    TotalZero(t, Cost, next);
    TotalZero(t, One, next);
  }

  lemma EmptyStore()
    ensures Indexed(map[], [], map[]) && Live(map[], 0) && Accounted(map[], 0, 0, 0, 0, 0)
  {
  }

  lemma NothingScanned(list: seq<Handle>, t: Table, now: int)
    requires forall h :: h in list ==> h in t
    ensures list[..|list|] + Unexpired(list[|list|..], t, now) == list
    ensures list[..0] + Unexpired(list[0..], t, now) == Unexpired(list, t, now)
  {
    assert list[|list|..] == [] && list[0..] == list;
  }

  class Store {
    var entries: map<string, Handle>
    var lru: seq<Handle>
    var table: Table
    var bytes: int
    var count: int
    var fills: int
    var readers: int
    var next: Handle

    ghost predicate Valid()
      reads this
    {
      && Indexed(entries, lru, table)
      && Live(table, next)
      && Accounted(table, next, bytes, count, fills, readers)
      && 0 <= fills <= MAX_FILLS && 0 <= readers <= MAX_READERS
      && bytes <= MAX_BYTES && count <= MAX_ENTRIES
    }

    constructor ()
      ensures Valid() && table == map[] && bytes == count == fills == readers == 0
    {
      hide Indexed, Live, Accounted;
      entries, lru, table := map[], [], map[];
      bytes, count, fills, readers, next := 0, 0, 0, 0, 0;
      new;
      EmptyStore();
    }

    /** `retire`: the entry leaves the index; its bytes go unless a reader still holds it. */
    method Retire(h: Handle)
      requires Valid() && h in table && table[h].visible
      modifies this`entries, this`lru, this`table, this`bytes, this`count
      ensures Valid()
      ensures table == Retained(old(table), Members(old(lru)) - {h})
      ensures lru == Removed(old(lru), h)
      ensures entries == old(entries) - {old(table[h].key)}
      ensures bytes == old(bytes) - FreedBytes(old(table[h])) && count == old(count) - FreedSlots(old(table[h]))
    {
      hide Indexed, Live, Accounted, RetiredTable, Retained;
      RetiredIsRetained(entries, lru, table, next, h);
      RetiredIsAccounted(table, next, bytes, count, fills, readers, h);
      var e := table[h];
      entries := entries - {e.key};
      lru := Removed(lru, h);
      table := RetiredTable(table, h);
      if e.refs == 0 {
        bytes := bytes - e.cost;
        count := count - 1;
      }
    }

    /** An entry for the key is there that has not expired, and there is room to send it. */
    ghost predicate Answers(key: string, now: int)
      reads this
    {
      && key in entries && entries[key] in table && now < table[entries[key]].expires
      && readers < MAX_READERS && bytes + READER <= MAX_BYTES
    }

    /** `get`: pins and returns a fresh entry if there is room for one more reader. */
    method Get(key: string, now: int) returns (r: Option<Handle>)
      requires Valid()
      modifies this`entries, this`lru, this`table, this`bytes, this`count, this`readers
      ensures Valid()
      ensures key !in old(entries) ==> r == None && table == old(table) && lru == old(lru)
      ensures key in old(entries) && old(table[entries[key]].expires) <= now ==>
        r == None && table == Retained(old(table), Members(old(lru)) - {old(entries[key])})
      ensures key in old(entries) && now < old(table[entries[key]].expires) ==>
        var h := old(entries[key]);
        && (r == None <==> old(readers) >= MAX_READERS || old(bytes) + READER > MAX_BYTES)
        && (r == None ==> table == old(table) && lru == old(lru))
        && (r != None ==>
              && r == Some(h)
              && table == old(table)[h := old(table[h]).(refs := old(table[h].refs) + 1)]
              && lru == [h] + Removed(old(lru), h))
      ensures readers == old(readers) + if r == None then 0 else 1
      ensures r != None ==>
        r.value in table && table[r.value].visible && table[r.value].key == key && now < table[r.value].expires
      ensures r != None <==> old(Answers(key, now))
    {
      if key !in entries { return None; }
      var h := entries[key];
      if now >= table[h].expires {
        Retire(h);
        return None;
      }
      if readers >= MAX_READERS || bytes + READER > MAX_BYTES { return None; }
      Pin(h);
      r := Some(h);
    }

    method Pin(h: Handle)
      requires Valid() && h in table && table[h].visible
      requires readers < MAX_READERS && bytes + READER <= MAX_BYTES
      modifies this`lru, this`table, this`bytes, this`readers
      ensures Valid() && readers == old(readers) + 1
      ensures table == old(table)[h := old(table[h]).(refs := old(table[h].refs) + 1)]
      ensures lru == [h] + Removed(old(lru), h)
    {
      hide Indexed, Live, Accounted;
      PinnedIsAccounted(table, next, bytes, count, fills, readers, h, table[h].refs + 1);
      PinnedIsIndexed(entries, lru, table, next, h, table[h].refs + 1);
      readers := readers + 1;
      bytes := bytes + READER;
      table := table[h := table[h].(refs := table[h].refs + 1)];
      lru := [h] + Removed(lru, h);
    }

    /** `release`: the last reader of a retired entry frees it. */
    method Release(h: Handle)
      requires Valid() && h in table && table[h].refs > 0
      modifies this`table, this`bytes, this`count, this`readers
      ensures Valid() && readers == old(readers) - 1
      ensures
        var e := old(table[h]);
        table == if !e.visible && e.refs == 1 then old(table) - {h} else old(table)[h := e.(refs := e.refs - 1)]
    {
      hide Indexed, Live, Accounted;
      var e := table[h];
      if !e.visible && e.refs == 1 {
        Dropped(entries, lru, table, next, bytes, count, fills, readers, h);
        readers, bytes, count := readers - 1, bytes - READER - e.cost, count - 1;
        table := table - {h};
      } else {
        Unpin(h);
      }
    }

    method Unpin(h: Handle)
      requires Valid() && h in table && table[h].refs > 0 && (table[h].visible || table[h].refs > 1)
      modifies this`table, this`bytes, this`readers
      ensures Valid() && readers == old(readers) - 1
      ensures table == old(table)[h := old(table[h]).(refs := old(table[h].refs) - 1)]
    {
      hide Indexed, Live, Accounted;
      PinnedIsAccounted(table, next, bytes, count, fills, readers, h, table[h].refs - 1);
      PinnedIsIndexed(entries, lru, table, next, h, table[h].refs - 1);
      readers := readers - 1;
      bytes := bytes - READER;
      table := table[h := table[h].(refs := table[h].refs - 1)];
    }

    /** Retire the entry at a place of the list. */
    method RetireAt(i: nat)
      requires Valid() && i < |lru|
      modifies this`entries, this`lru, this`table, this`bytes, this`count
      ensures Valid()
      ensures old(lru[i]) in old(table)
      ensures lru == old(lru)[..i] + old(lru)[i + 1..]
      ensures table == Retained(old(table), Members(lru))
      ensures bytes == old(bytes) - FreedBytes(old(table[lru[i]]))
      ensures count == old(count) - FreedSlots(old(table[lru[i]]))
    {
      Listed(entries, lru, table);
      hide Indexed, Live, Accounted, Retained;
      RemovedAt(lru, i);
      Retire(lru[i]);
      assert Members(lru) == Members(old(lru)) - {old(lru[i])};
    }

    /** The first loop of `reserve`: from the back of the list, retire what has expired. */
    method Expire(now: int)
      requires Valid()
      modifies this`entries, this`lru, this`table, this`bytes, this`count
      ensures Valid()
      ensures forall h :: h in old(lru) ==> h in old(table)
      ensures lru == Unexpired(old(lru), old(table), now)
      ensures table == Retained(old(table), Members(lru))
    {
      ghost var list, live := lru, table;
      Listed(entries, lru, table);
      RetainedAll(entries, lru, table, next);
      hide Indexed, Live, Accounted, Retained, Members, Removed, Unexpired;
      var i := |lru|;
      NothingScanned(lru, table, now);
      assert lru == list[..i] + Unexpired(list[i..], live, now);
      while i > 0
        invariant Valid() && 0 <= i <= |list|
        invariant lru == list[..i] + Unexpired(list[i..], live, now)
        invariant table == Retained(live, Members(lru))
      {
        i := i - 1;
        ScanStep(list, live, i, now, lru);
        Listed(entries, lru, table);
        KeptAsWas(live, Members(lru), lru[i]);
        if table[lru[i]].expires <= now {
          ghost var before := lru;
          RetireAt(i);
          RetainedTwice(live, Members(before), Members(lru));
        }
      }
    }

    /** The second loop of `reserve`: evict from the back until a reservation fits. */
    method MakeRoom() returns (ok: bool)
      requires Valid()
      modifies this`entries, this`lru, this`table, this`bytes, this`count
      ensures Valid()
      ensures lru <= old(lru) && table == Retained(old(table), Members(lru))
      ensures ok <==> !NoRoom(bytes, count)
      ensures !ok ==> lru == []
      ensures Minimal(lru, old(lru), old(table), bytes, count)
    {
      ghost var list, live := lru, table;
      Listed(entries, lru, table);
      RetainedAll(entries, lru, table, next);
      hide Indexed, Live, Accounted, Retained;
      while NoRoom(bytes, count)
        invariant Valid()
        invariant lru <= list && table == Retained(live, Members(lru))
        invariant Minimal(lru, list, live, bytes, count)
        decreases |lru|
      {
        if lru == [] { return false; }
        ghost var before := lru;
        Listed(entries, lru, table);
        KeptAsWas(live, Members(lru), lru[|lru| - 1]);
        RetireAt(|lru| - 1);
        assert lru == before[..|before| - 1];
        RetainedTwice(live, Members(before), Members(lru));
      }
      ok := true;
    }

    /** `reserve`: drop what has expired, evict the least recently used for as long as a
        reservation does not fit, then take one fill slot. */
    method Reserve(now: int) returns (ok: bool)
      requires Valid()
      modifies this`entries, this`lru, this`table, this`bytes, this`count, this`fills
      ensures Valid()
      ensures old(fills) >= MAX_FILLS ==> !ok && table == old(table) && lru == old(lru)
      ensures forall h :: h in old(lru) ==> h in old(table)
      // Only expired entries and the back of the list go.
      ensures old(fills) < MAX_FILLS ==>
        lru <= Unexpired(old(lru), old(table), now) && table == Retained(old(table), Members(lru))
      // An unexpired entry goes only if keeping it would have left no room.
      ensures ok ==> Minimal(lru, Unexpired(old(lru), old(table), now), old(table), bytes - RESERVATION, count - 1)
      // A reservation is refused only with nothing left to evict.
      ensures !ok && old(fills) < MAX_FILLS ==> lru == [] && NoRoom(bytes, count)
      ensures fills == old(fills) + if ok then 1 else 0
    {
      Listed(entries, lru, table);
      hide Indexed, Live, Accounted, Retained, Unexpired, NoRoom;
      if fills >= MAX_FILLS { return false; }
      Expire(now);
      ghost var list, live := lru, table;
      ok := MakeRoom();
      RetainedTwice(old(table), Members(list), Members(lru));
      if |lru| < |list| {
        KeptAsWas(old(table), Members(list), list[|lru|]);
      }
      if ok { TakeSlot(); }
    }

    method TakeSlot()
      requires Valid() && fills < MAX_FILLS && !NoRoom(bytes, count)
      modifies this`bytes, this`count, this`fills
      ensures Valid() && bytes == old(bytes) + RESERVATION && count == old(count) + 1 && fills == old(fills) + 1
    {
      hide Indexed, Live, Accounted;
      ReservedIsAccounted(table, next, bytes, count, fills, readers, 1);
      Charges();
      bytes := bytes + RESERVATION;
      count := count + 1;
      fills := fills + 1;
    }

    /** `finish`: gives the slot back and installs the completed entry, if there is one. */
    method Finish(entry: Option<Entry>) returns (installed: Option<Handle>)
      requires Valid() && fills > 0
      requires entry.Some? ==> entry.value.refs == 0 && entry.value.visible
      modifies this
      ensures Valid() && fills == old(fills) - 1 && readers == old(readers)
      ensures entry == None ==> installed == None && table == old(table) && lru == old(lru)
      ensures entry.Some? && entry.value.cost <= RESERVATION ==> installed.Some?
      ensures installed.Some? ==>
        && installed.value !in old(table) && installed.value in table && table[installed.value] == entry.value
        && lru == [installed.value] + WithoutKey(old(lru), old(entries), entry.value.key)
        && table - {installed.value} ==
           Retained(old(table), Members(WithoutKey(old(lru), old(entries), entry.value.key)))
      ensures installed == None && entry.Some? ==>
        table == Retained(old(table), Members(WithoutKey(old(lru), old(entries), entry.value.key)))
    {
      Unused(table, next);
      hide Indexed, Live, Accounted, Retained, Removed;
      GiveBackSlot();
      if entry == None { return None; }
      var e := entry.value;
      Displace(e.key);
      if bytes + e.cost > MAX_BYTES || count >= MAX_ENTRIES { return None; }
      Unused(table, next);
      ghost var t := table;
      installed := Install(e);
      assert table - {installed.value} == t;
    }

    method GiveBackSlot()
      requires Valid() && fills > 0
      modifies this`bytes, this`count, this`fills
      ensures Valid() && bytes == old(bytes) - RESERVATION && count == old(count) - 1 && fills == old(fills) - 1
    {
      hide Indexed, Live, Accounted;
      ReservedIsAccounted(table, next, bytes, count, fills, readers, -1);
      Charges();
      bytes := bytes - RESERVATION;
      count := count - 1;
      fills := fills - 1;
    }

    /** An entry with the same key gives way. */
    method Displace(key: string)
      requires Valid()
      modifies this`entries, this`lru, this`table, this`bytes, this`count
      ensures Valid() && key !in entries && bytes <= old(bytes) && count <= old(count)
      ensures lru == WithoutKey(old(lru), old(entries), key)
      ensures table == Retained(old(table), Members(lru))
    {
      RetainedAll(entries, lru, table, next);
      Named(entries, lru, table);
      hide Indexed, Live, Accounted, Retained;
      if key in entries {
        Retire(entries[key]);
        assert Members(lru) == Members(old(lru)) - {old(entries)[key]};
      }
    }

    method Install(e: Entry) returns (installed: Option<Handle>)
      requires Valid() && e.key !in entries && e.refs == 0 && e.visible
      requires bytes + e.cost <= MAX_BYTES && count < MAX_ENTRIES
      modifies this`entries, this`lru, this`table, this`bytes, this`count, this`next
      ensures Valid() && installed == Some(old(next))
      ensures table == old(table)[old(next) := e] && lru == [old(next)] + old(lru)
    {
      hide Indexed, Live, Accounted;
      Installed(entries, lru, table, next, bytes, count, fills, readers, e);
      installed := Some(next);
      entries, lru, table := entries[e.key := next], [next] + lru, table[next := e];
      bytes, count, next := bytes + e.cost, count + 1, next + 1;
    }

    /** `invalidate`: retires every entry of a namespace, in whatever order the map gives them. */
    method Invalidate(namespace: nat)
      requires Valid()
      modifies this`entries, this`lru, this`table, this`bytes, this`count
      ensures Valid()
      ensures table == Retained(old(table), OfOthers(old(table), Members(old(lru)), namespace))
      ensures forall h :: h in table && table[h].visible ==> table[h].namespace != namespace
    {
      hide Indexed, Live, Accounted, Retained, Removed, Swept, Members, OfOthers;
      ghost var list, live := lru, table;
      RetainedAll(entries, lru, table, next);
      SweepBegins(entries, lru, table, namespace);
      var todo := entries.Keys;
      while todo != {}
        invariant Valid()
        invariant todo <= entries.Keys
        invariant table == Retained(live, Members(lru))
        invariant Swept(live, Members(list), Members(lru), namespace, todo)
        decreases todo
      {
        var k :| k in todo;
        Named(entries, lru, table);
        var h := entries[k];
        SweepGoesOn(entries, lru, table, live, Members(list), namespace, todo, k);
        todo := todo - {k};
        if table[h].namespace == namespace {
          ghost var before := lru;
          Retire(h);
          MembersLess(before, h);
          RetainedTwice(live, Members(before), Members(lru));
        }
      }
      SweepEnds(entries, lru, table, live, Members(list), namespace);
    }
  }

  lemma MembersLess(s: seq<Handle>, h: Handle)
    ensures Members(Removed(s, h)) == Members(s) - {h} && Members(Removed(s, h)) <= Members(s)
  {
  }

  lemma SweepBegins(entries: map<string, Handle>, lru: seq<Handle>, t: Table, namespace: nat)
    requires Indexed(entries, lru, t)
    ensures Swept(t, Members(lru), Members(lru), namespace, entries.Keys)
  {
  }

  /** One entry is visited: it stays if it is of another namespace and goes otherwise. */
  lemma SweepGoesOn(entries: map<string, Handle>, lru: seq<Handle>, t: Table, live: Table, all: set<Handle>,
                    namespace: nat,
                    todo: set<string>, k: string)
    requires Indexed(entries, lru, t) && t == Retained(live, Members(lru)) && k in entries
    requires Swept(live, all, Members(lru), namespace, todo)
    ensures entries[k] in t
    ensures
      var h := entries[k];
      if t[h].namespace == namespace then Swept(live, all, Members(lru) - {h}, namespace, todo - {k})
      else Swept(live, all, Members(lru), namespace, todo - {k})
  {
    var h := entries[k];
    assert h in Members(lru) && t[h] == live[h];
    forall x | x in Members(lru) && x in live && live[x].key == k ensures x == h {
      assert x in t && t[x] == live[x] && t[x].visible;
    }
  }

  lemma SweepEnds(entries: map<string, Handle>, lru: seq<Handle>, t: Table, live: Table, all: set<Handle>,
                  namespace: nat)
    requires Indexed(entries, lru, t) && t == Retained(live, Members(lru))
    requires Swept(live, all, Members(lru), namespace, {})
    ensures t == Retained(live, OfOthers(live, all, namespace))
    ensures forall h :: h in t && t[h].visible ==> t[h].namespace != namespace
  {
    assert Members(lru) == OfOthers(live, all, namespace);
  }

  function WithoutKey(lru: seq<Handle>, entries: map<string, Handle>, key: string): seq<Handle> {
    if key in entries then Removed(lru, entries[key]) else lru
  }

  /** What the sweep has left: nothing but entries of the list, among them every entry of
      another namespace, and of this one only what is still to be visited. */
  ghost predicate Swept(t: Table, all: set<Handle>, left: set<Handle>, namespace: nat, todo: set<string>) {
    && left <= all && OfOthers(t, all, namespace) <= left
    && forall h :: h in left && h in t && t[h].namespace == namespace ==> t[h].key in todo
  }

  function OfOthers(t: Table, shown: set<Handle>, namespace: nat): set<Handle> {
    set h | h in shown && h in t && t[h].namespace != namespace
  }
}
