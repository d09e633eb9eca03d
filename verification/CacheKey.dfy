/** The cache key before it is hashed: decimal numbers and strings, each with its length in front.
    `negotiation` holds the values of Accept-Encoding, Accept, Accept-Language and Origin. */
module CacheKey {
  import opened Durability

  datatype Key = Key(namespace: nat, epoch: nat, configuration: string, scheme: string, host: string,
                     path: string, negotiation: seq<seq<string>>)

  const MAX_VALUES := 16
  const MAX_SIZE := 4096

  // ---------- Decimal numbers ----------

  function Digit(d: nat): char
    requires d < 10
  {
    d as char + '0'
  }

  function Decimal(n: nat): (s: string)
    ensures |s| > 0 && ':' !in s
  {
    if n < 10 then [Digit(n)] else Decimal(n / 10) + [Digit(n % 10)]
  }

  lemma {:induction false} DecimalInjective(a: nat, b: nat)
    requires Decimal(a) == Decimal(b)
    ensures a == b
  {
    var s := Decimal(a);
    if a < 10 && b < 10 {
      assert Digit(a) == s[0] == Digit(b);
    } else if a >= 10 && b >= 10 {
      assert Decimal(a / 10) == s[..|s| - 1] == Decimal(b / 10);
      DecimalInjective(a / 10, b / 10);
      assert Digit(a % 10) == s[|s| - 1] == Digit(b % 10);
    }
  }

  // ---------- Length-prefixed parts ----------

  function Prefixed(part: string): string {
    Decimal(|part|) + ":" + part
  }

  function Encode(parts: seq<string>): (s: string)
    ensures parts != [] ==> s != ""
  {
    if parts == [] then "" else Prefixed(parts[0]) + Encode(parts[1..])
  }

  /** A separator that occurs in neither front splits both texts at the same place. */
  lemma {:induction false} SplitAtColon(a: string, b: string, x: string, y: string)
    requires ':' !in a && ':' !in b && a + ":" + x == b + ":" + y
    ensures a == b && x == y
  {
    var t := a + ":" + x;
    assert t[|a|] == ':' && t[|b|] == ':';
    assert forall i :: 0 <= i < |a| ==> t[i] == a[i] && a[i] in a;
    assert forall i :: 0 <= i < |b| ==> t[i] == b[i] && b[i] in b;
    assert |a| == |b|;
    assert a == t[..|a|] && b == t[..|b|];
    assert x == t[|a| + 1..] && y == t[|b| + 1..];
  }

  lemma {:induction false} EncodingIsInjective(a: seq<string>, b: seq<string>)
    requires Encode(a) == Encode(b)
    ensures a == b
    decreases a
  {
    if a != [] && b != [] {
      var p, q := a[0], b[0];
      var x, y := p + Encode(a[1..]), q + Encode(b[1..]);
      assert Encode(a) == Decimal(|p|) + ":" + x;
      assert Encode(b) == Decimal(|q|) + ":" + y;
      SplitAtColon(Decimal(|p|), Decimal(|q|), x, y);
      DecimalInjective(|p|, |q|);
      assert p == x[..|p|] == y[..|q|] == q;
      assert Encode(a[1..]) == x[|p|..] == y[|q|..] == Encode(b[1..]);
      EncodingIsInjective(a[1..], b[1..]);
      assert a == [p] + a[1..] && b == [q] + b[1..];
    }
  }

  // ---------- From keys to parts ----------

  /** Each list of header values, its length in front. */
  function Counted(lists: seq<seq<string>>): seq<string> {
    if lists == [] then [] else [Decimal(|lists[0]|)] + lists[0] + Counted(lists[1..])
  }

  function Parts(k: Key): seq<string> {
    [Decimal(k.namespace), Decimal(k.epoch), k.configuration, k.scheme, k.host, k.path] + Counted(k.negotiation)
  }

  lemma {:induction false} CountedIsInjective(a: seq<seq<string>>, b: seq<seq<string>>)
    requires Counted(a) == Counted(b)
    ensures a == b
    decreases a
  {
    if a != [] && b != [] {
      var s := Counted(a);
      assert s[0] == Decimal(|a[0]|) == Decimal(|b[0]|);
      DecimalInjective(|a[0]|, |b[0]|);
      assert a[0] == s[1..1 + |a[0]|] == b[0];
      assert Counted(a[1..]) == s[1 + |a[0]|..] == Counted(b[1..]);
      CountedIsInjective(a[1..], b[1..]);
      assert a == [a[0]] + a[1..] && b == [b[0]] + b[1..];
    }
  }

  /** Equal bytes under the digest come from equal keys, value list by value list. */
  lemma {:induction false} KeyIsInjective(a: Key, b: Key)
    requires Encode(Parts(a)) == Encode(Parts(b))
    ensures a == b
  {
    EncodingIsInjective(Parts(a), Parts(b));
    var s := Parts(a);
    assert s[0] == Decimal(a.namespace) == Decimal(b.namespace);
    assert s[1] == Decimal(a.epoch) == Decimal(b.epoch);
    assert s[2] == a.configuration == b.configuration;
    assert s[3] == a.scheme == b.scheme;
    assert s[4] == a.host == b.host;
    assert s[5] == a.path == b.path;
    DecimalInjective(a.namespace, b.namespace);
    DecimalInjective(a.epoch, b.epoch);
    assert Counted(a.negotiation) == s[6..] == Counted(b.negotiation);
    CountedIsInjective(a.negotiation, b.negotiation);
  }

  // ---------- The loops of `requestKeyAt` ----------

  function SizeOf(values: seq<string>): nat {
    if values == [] then 0 else SizeOf(values[..|values| - 1]) + |values[|values| - 1]| + 32
  }

  function SizeOfAll(lists: seq<seq<string>>): nat {
    if lists == [] then 0 else SizeOfAll(lists[..|lists| - 1]) + SizeOf(lists[|lists| - 1])
  }

  /** The negotiation headers stay within their limits. */
  predicate Modest(lists: seq<seq<string>>) {
    (forall i :: 0 <= i < |lists| ==> |lists[i]| <= MAX_VALUES) && SizeOfAll(lists) <= MAX_SIZE
  }

  lemma {:induction false} CountedAppend(a: seq<seq<string>>, last: seq<string>)
    ensures Counted(a + [last]) == Counted(a) + [Decimal(|last|)] + last
    decreases a
  {
    if a == [] {
      assert a + [last] == [last] && [last][1..] == [];
    } else {
      assert (a + [last])[1..] == a[1..] + [last];
      CountedAppend(a[1..], last);
    }
  }

  lemma {:induction false} PrefixIsSmaller(lists: seq<seq<string>>, i: nat)
    requires i <= |lists|
    ensures SizeOfAll(lists[..i]) <= SizeOfAll(lists)
    decreases |lists| - i
  {
    if i < |lists| {
      PrefixIsSmaller(lists, i + 1);
      assert lists[..i + 1][..i] == lists[..i];
    } else {
      assert lists[..i] == lists;
    }
  }

  lemma {:induction false} ValuesAreSmaller(values: seq<string>, j: nat)
    requires j <= |values|
    ensures SizeOf(values[..j]) <= SizeOf(values)
    decreases |values| - j
  {
    if j < |values| {
      ValuesAreSmaller(values, j + 1);
      assert values[..j + 1][..j] == values[..j];
    } else {
      assert values[..j] == values;
    }
  }

  /** The inner loop: appends the values of one header until the size limit is passed. */
  method AppendValues(out: seq<string>, size: nat, values: seq<string>) returns (r: Option<(seq<string>, nat)>)
    requires size <= MAX_SIZE
    ensures r.Some? <==> size + SizeOf(values) <= MAX_SIZE
    ensures r.Some? ==> r.value == (out + values, size + SizeOf(values))
  {
    var extended, total := out, size;
    for j := 0 to |values|
      invariant extended == out + values[..j]
      invariant total == size + SizeOf(values[..j]) <= MAX_SIZE
    {
      assert values[..j + 1][..j] == values[..j];
      ValuesAreSmaller(values, j + 1);
      total := total + |values[j]| + 32;
      if total > MAX_SIZE { return None; }
      extended := extended + [values[j]];
    }
    assert values[..|values|] == values;
    r := Some((extended, total));
  }

  /** What one more header adds to the parts and to their size. */
  lemma OneMore(lists: seq<seq<string>>, i: nat)
    requires i < |lists|
    ensures Counted(lists[..i + 1]) == Counted(lists[..i]) + [Decimal(|lists[i]|)] + lists[i]
    ensures SizeOfAll(lists[..i + 1]) == SizeOfAll(lists[..i]) + SizeOf(lists[i]) <= SizeOfAll(lists)
  {
    hide Decimal, Counted;
    assert lists[..i + 1] == lists[..i] + [lists[i]] && lists[..i + 1][..i] == lists[..i];
    CountedAppend(lists[..i], lists[i]);
    PrefixIsSmaller(lists, i + 1);
  }

  /** The parts of an acceptable request; `None` when a limit is exceeded. */
  method RequestParts(k: Key) returns (parts: Option<seq<string>>)
    ensures parts.Some? <==> Modest(k.negotiation)
    ensures parts.Some? ==> parts.value == Parts(k)
  {
    hide Decimal, Counted, SizeOf, SizeOfAll;
    var lists := k.negotiation;
    var out := [Decimal(k.namespace), Decimal(k.epoch), k.configuration, k.scheme, k.host, k.path];
    ghost var front := out;
    var size := 0;
    NoHeaders(lists);
    assert front + [] == front;
    for i := 0 to |lists|
      invariant out == front + Counted(lists[..i])
      invariant size == SizeOfAll(lists[..i]) <= MAX_SIZE
      invariant forall x :: 0 <= x < i ==> |lists[x]| <= MAX_VALUES
    {
      var values := lists[i];
      if |values| > MAX_VALUES { return None; }
      OneMore(lists, i);
      var r := AppendValues(out + [Decimal(|values|)], size, values);
      if r.None? { return None; }
      Regroup(front, Counted(lists[..i]), [Decimal(|values|)], values);
      out, size := r.value.0, r.value.1;
    }
    assert lists[..|lists|] == lists;
    parts := Some(out);
  }

  lemma NoHeaders(lists: seq<seq<string>>)
    ensures Counted(lists[..0]) == [] && SizeOfAll(lists[..0]) == 0
  {
  }

  lemma Regroup(a: seq<string>, b: seq<string>, c: seq<string>, d: seq<string>)
    ensures a + b + c + d == a + (b + c + d)
  {
  }
}
