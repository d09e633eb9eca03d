/** Byte strings in their lexicographic order, and sorting by such keys. */
module KeyOrder {

  type Key = seq<nat>

  predicate AtMost(a: Key, b: Key) {
    if a == [] then true
    else if b == [] then false
    else a[0] < b[0] || (a[0] == b[0] && AtMost(a[1..], b[1..]))
  }

  lemma {:induction false} Total(a: Key, b: Key)
    ensures AtMost(a, b) || AtMost(b, a)
    ensures AtMost(a, b) && AtMost(b, a) ==> a == b
  {
    if a != [] && b != [] && a[0] == b[0] {
      Total(a[1..], b[1..]);
      assert a == [a[0]] + a[1..] && b == [b[0]] + b[1..];
    }
  }

  lemma {:induction false} Transitive(a: Key, b: Key, c: Key)
    requires AtMost(a, b) && AtMost(b, c)
    ensures AtMost(a, c)
  {
    if a != [] && a[0] == b[0] && b[0] == c[0] { Transitive(a[1..], b[1..], c[1..]); }
  }

  // ---------- Sorting ----------

  function Insert<T>(x: T, s: seq<T>, key: T -> Key): seq<T> {
    if s == [] || AtMost(key(x), key(s[0])) then [x] + s else [s[0]] + Insert(x, s[1..], key)
  }

  function Sort<T>(s: seq<T>, key: T -> Key): seq<T> {
    if s == [] then [] else Insert(s[0], Sort(s[1..], key), key)
  }

  ghost predicate Ascending<T(!new)>(s: seq<T>, key: T -> Key) {
    forall i, k :: 0 <= i < k < |s| ==> AtMost(key(s[i]), key(s[k]))
  }

  lemma {:induction false} InsertBag<T(!new)>(x: T, s: seq<T>, key: T -> Key)
    ensures multiset(Insert(x, s, key)) == multiset(s) + multiset{x}
  {
    if s != [] && !AtMost(key(x), key(s[0])) {
      InsertBag(x, s[1..], key);
      assert s == [s[0]] + s[1..];
    }
  }

  lemma {:induction false} InsertAscends<T(!new)>(x: T, s: seq<T>, key: T -> Key)
    requires Ascending(s, key)
    ensures Ascending(Insert(x, s, key), key)
  {
    var r := Insert(x, s, key);
    if s == [] {
    } else if AtMost(key(x), key(s[0])) {
      forall i, k | 0 <= i < k < |r| ensures AtMost(key(r[i]), key(r[k])) {
        assert r[k] == s[k - 1] && (i > 0 ==> r[i] == s[i - 1]);
        if i == 0 && k > 1 { Transitive(key(x), key(s[0]), key(s[k - 1])); }
      }
    } else {
      var rest := Insert(x, s[1..], key);
      InsertAscends(x, s[1..], key);
      InsertBag(x, s[1..], key);
      forall i, k | 0 <= i < k < |r| ensures AtMost(key(r[i]), key(r[k])) {
        assert r[k] == rest[k - 1] && (i > 0 ==> r[i] == rest[i - 1]);
        if i == 0 {
          assert rest[k - 1] in multiset(rest);
          if rest[k - 1] == x { Total(key(x), key(s[0])); }
          else { assert rest[k - 1] in s[1..]; }
        }
      }
    }
  }

  /** Sorting permutes and orders. */
  lemma {:induction false} SortIs<T(!new)>(s: seq<T>, key: T -> Key)
    ensures multiset(Sort(s, key)) == multiset(s) && |Sort(s, key)| == |s| && Ascending(Sort(s, key), key)
  {
    if s != [] {
      SortIs(s[1..], key);
      InsertBag(s[0], Sort(s[1..], key), key);
      InsertAscends(s[0], Sort(s[1..], key), key);
      assert s == [s[0]] + s[1..];
      assert |multiset(Sort(s, key))| == |multiset(s)|;
    }
  }

  ghost predicate KeysTell<T(!new)>(s: seq<T>, key: T -> Key) {
    forall i, k :: 0 <= i < |s| && 0 <= k < |s| && key(s[i]) == key(s[k]) ==> s[i] == s[k]
  }

  /** Two sorted lists of the same elements have the same head. */
  lemma SameHead<T(!new)>(a: seq<T>, b: seq<T>, key: T -> Key)
    requires Ascending(a, key) && Ascending(b, key) && multiset(a) == multiset(b) && KeysTell(a, key) && a != []
    ensures b != [] && a[0] == b[0]
  {
    assert a[0] in multiset(b);
    var i :| 0 <= i < |b| && b[i] == a[0];
    assert b[0] in multiset(b) && b[0] in multiset(a);
    var k :| 0 <= k < |a| && a[k] == b[0];
    Reflexive(key(a[0]));
    Total(key(a[0]), key(b[0]));
  }

  lemma WithoutOne<T(!new)>(s: seq<T>, i: nat)
    requires i < |s|
    ensures multiset(s[..i] + s[i + 1..]) == multiset(s) - multiset{s[i]}
  {
    assert s == s[..i] + [s[i]] + s[i + 1..];
  }

  /** A sorted list is determined by what is in it. */
  lemma {:induction false} OneOrder<T(!new)>(a: seq<T>, b: seq<T>, key: T -> Key)
    requires Ascending(a, key) && Ascending(b, key) && multiset(a) == multiset(b) && KeysTell(a, key)
    ensures a == b
  {
    hide Ascending, KeysTell;
    if a == [] {
      assert |multiset(b)| == |b|;
    } else {
      SameHead(a, b, key);
      TailBag(a);
      TailBag(b);
      TailKeeps(a, key);
      TailKeeps(b, key);
      OneOrder(a[1..], b[1..], key);
      assert a == [a[0]] + a[1..] && b == [b[0]] + b[1..];
    }
  }

  lemma TailBag<T(!new)>(s: seq<T>)
    requires s != []
    ensures multiset(s[1..]) == multiset(s) - multiset{s[0]}
  {
    assert s == [s[0]] + s[1..];
  }

  lemma TailKeeps<T(!new)>(s: seq<T>, key: T -> Key)
    requires s != []
    ensures Ascending(s, key) ==> Ascending(s[1..], key)
    ensures KeysTell(s, key) ==> KeysTell(s[1..], key)
  {
  }

  lemma {:induction false} Reflexive(a: Key)
    ensures AtMost(a, a)
  {
    if a != [] { Reflexive(a[1..]); }
  }

  /** Sorting forgets the order it was given. */
  lemma SortAgrees<T(!new)>(a: seq<T>, b: seq<T>, key: T -> Key)
    requires multiset(a) == multiset(b) && KeysTell(a, key)
    ensures Sort(a, key) == Sort(b, key)
  {
    SortIs(a, key);
    SortIs(b, key);
    var s := Sort(a, key);
    forall i, k | 0 <= i < |s| && 0 <= k < |s| && key(s[i]) == key(s[k]) ensures s[i] == s[k] {
      assert s[i] in multiset(a) && s[k] in multiset(a);
      var x :| 0 <= x < |a| && a[x] == s[i];
      var y :| 0 <= y < |a| && a[y] == s[k];
    }
    OneOrder(Sort(a, key), Sort(b, key), key);
  }

  // ---------- Bags of keys ----------

  /** All keys that `f` finds in the elements. */
  function Bag<T>(s: seq<T>, f: T -> multiset<Key>): multiset<Key> {
    if s == [] then multiset{} else f(s[0]) + Bag(s[1..], f)
  }

  lemma {:induction false} BagSplit<T>(a: seq<T>, b: seq<T>, f: T -> multiset<Key>)
    ensures Bag(a + b, f) == Bag(a, f) + Bag(b, f)
  {
    if a == [] {
      assert a + b == b;
    } else {
      assert (a + b)[1..] == a[1..] + b;
      BagSplit(a[1..], b, f);
    }
  }

  /** The bag depends only on what is in the list. */
  lemma {:induction false} BagAgrees<T(!new)>(a: seq<T>, b: seq<T>, f: T -> multiset<Key>)
    requires multiset(a) == multiset(b)
    ensures Bag(a, f) == Bag(b, f)
  {
    if a == [] {
      assert |multiset(b)| == |b|;
    } else {
      assert a[0] in multiset(b);
      var i :| 0 <= i < |b| && b[i] == a[0];
      var less := b[..i] + b[i + 1..];
      TailBag(a);
      WithoutOne(b, i);
      BagAgrees(a[1..], less, f);
      BagWithout(b, i, f);
    }
  }

  lemma BagHead<T>(x: T, s: seq<T>, f: T -> multiset<Key>)
    ensures Bag([x] + s, f) == f(x) + Bag(s, f)
  {
    assert ([x] + s)[1..] == s;
  }

  lemma BagWithout<T>(s: seq<T>, i: nat, f: T -> multiset<Key>)
    requires i < |s|
    ensures Bag(s, f) == f(s[i]) + Bag(s[..i] + s[i + 1..], f)
  {
    hide Bag;
    var tail := [s[i]] + s[i + 1..];
    assert s == s[..i] + tail;
    BagSplit(s[..i], tail, f);
    BagSplit(s[..i], s[i + 1..], f);
    BagHead(s[i], s[i + 1..], f);
  }

  ghost predicate Once(bag: multiset<Key>) {
    forall k :: bag[k] <= 1
  }
}
