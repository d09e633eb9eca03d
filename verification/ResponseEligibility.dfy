/** Which responses may be stored, for how long, and what they cost.  Times and durations are
    nanoseconds; dates and ages in headers are whole seconds. */
module ResponseEligibility {
  import opened Durability

  const MAX_BYTES := 67108864
  const MAX_ENTRIES := 1024
  const MAX_BODY := 1048576
  const MAX_HEADERS := 16384
  const MAX_KEY := 8192
  const MAX_FILLS := 16
  const MAX_READERS := 64
  const OVERHEAD := 1024
  const RESERVATION := MAX_BODY + 2 * MAX_HEADERS + MAX_KEY + OVERHEAD
  const READER := MAX_HEADERS + OVERHEAD
  const SECOND := 1000000000
  const INT64_LIMIT := 9223372036854775808

  function Min(a: int, b: int): int { if a < b then a else b }

  function Max(a: int, b: int): int { if a > b then a else b }

  // ---------- Header sizes ----------

  datatype Field = Field(name: string, values: seq<string>)

  function ValuesSize(values: seq<string>): nat {
    if values == [] then 0 else |values[0]| + 64 + ValuesSize(values[1..])
  }

  function FieldSize(f: Field): nat {
    |f.name| + 64 + ValuesSize(f.values)
  }

  function FullSize(fields: seq<Field>): nat {
    if fields == [] then 0 else FieldSize(fields[0]) + FullSize(fields[1..])
  }

  lemma {:induction false} FullSizeAppend(a: seq<Field>, b: seq<Field>)
    ensures FullSize(a + b) == FullSize(a) + FullSize(b)
    decreases a
  {
    if a == [] {
      assert a + b == b;
    } else {
      assert (a + b)[1..] == a[1..] + b;
      FullSizeAppend(a[1..], b);
    }
  }

  lemma {:induction false} FullSizeWithout(b: seq<Field>, i: nat)
    requires i < |b|
    ensures FullSize(b) == FieldSize(b[i]) + FullSize(b[..i] + b[i + 1..])
  {
    assert b == b[..i] + ([b[i]] + b[i + 1..]);
    FullSizeAppend(b[..i], [b[i]] + b[i + 1..]);
    FullSizeAppend(b[..i], b[i + 1..]);
  }

  /** The size of a header does not depend on the order in which its fields are visited. */
  lemma {:induction false} FullSizePermuted(a: seq<Field>, b: seq<Field>)
    requires multiset(a) == multiset(b)
    ensures FullSize(a) == FullSize(b)
    decreases a
  {
    if a == [] {
      assert |multiset(b)| == 0;
    } else {
      assert a[0] in multiset(a);
      var i :| 0 <= i < |b| && b[i] == a[0];
      FullSizeWithout(b, i);
      SameRest(a, b, i);
      FullSizePermuted(a[1..], b[..i] + b[i + 1..]);
    }
  }

  lemma SameRest(a: seq<Field>, b: seq<Field>, i: nat)
    requires multiset(a) == multiset(b) && a != [] && i < |b| && b[i] == a[0]
    ensures multiset(a[1..]) == multiset(b[..i] + b[i + 1..])
  {
    assert a == [a[0]] + a[1..];
    assert b == b[..i] + [b[i]] + b[i + 1..];
    assert multiset(a) == multiset{a[0]} + multiset(a[1..]);
    assert multiset(b) == multiset(b[..i]) + multiset{b[i]} + multiset(b[i + 1..]);
    assert multiset(a[1..]) == multiset(a) - multiset{a[0]};
    assert multiset(b[..i] + b[i + 1..]) == multiset(b[..i]) + multiset(b[i + 1..]) == multiset(b) - multiset{b[i]};
  }

  /** The bytes of names and values alone. */
  function RawSize(fields: seq<Field>): nat {
    if fields == [] then 0 else |fields[0].name| + ValuesLength(fields[0].values) + RawSize(fields[1..])
  }

  function ValuesLength(values: seq<string>): nat {
    if values == [] then 0 else |values[0]| + ValuesLength(values[1..])
  }

  /** The conservative size covers the bytes and 64 for every name and every value. */
  lemma {:induction false} FullSizeCovers(fields: seq<Field>)
    ensures RawSize(fields) + 64 * |fields| <= FullSize(fields)
  {
    if fields != [] {
      ValuesSizeIs(fields[0].values);
      FullSizeCovers(fields[1..]);
    }
  }

  lemma {:induction false} ValuesSizeIs(values: seq<string>)
    ensures ValuesSize(values) == ValuesLength(values) + 64 * |values|
  {
    if values != [] { ValuesSizeIs(values[1..]); }
  }

  /** Counting stops with the first field that passes the limit, so the result falls short of the
      whole exactly if one was passed before the last field. */
  lemma CountIsWhole(fields: seq<Field>, n: nat)
    requires n <= |fields| && FullSize(fields[..n]) <= FullSize(fields)
    requires n == |fields| || FullSize(fields[..n]) > MAX_HEADERS
    requires forall i :: 0 <= i < n ==> FullSize(fields[..i]) <= MAX_HEADERS
    ensures FullSize(fields[..n]) == FullSize(fields) <==>
              (fields == [] || FullSize(fields[..|fields| - 1]) <= MAX_HEADERS)
  {
    hide FullSize, RawSize;
    if n < |fields| {
      var last := |fields| - 1;
      assert fields[..last] == fields[..n] + fields[n..last];
      FullSizeAppend(fields[..n], fields[n..last]);
      assert fields == fields[..n] + fields[n..];
      FullSizeAppend(fields[..n], fields[n..]);
      FullSizeCovers(fields[n..]);
    } else {
      assert fields[..n] == fields;
    }
  }

  /** `headerSize`: stops counting once the limit is passed.  It gives the whole size exactly if
      the limit was not passed before the last field visited. */
  method HeaderSize(fields: seq<Field>) returns (size: nat)
    ensures size <= FullSize(fields)
    ensures FullSize(fields) <= MAX_HEADERS ==> size == FullSize(fields)
    ensures FullSize(fields) > MAX_HEADERS ==> size > MAX_HEADERS
    ensures size == FullSize(fields) <==> (fields == [] || FullSize(fields[..|fields| - 1]) <= MAX_HEADERS)
  {
    size := 0;
    for i := 0 to |fields|
      invariant size == FullSize(fields[..i]) <= FullSize(fields)
      invariant size <= MAX_HEADERS
      invariant forall x :: 0 <= x <= i ==> FullSize(fields[..x]) <= MAX_HEADERS
    {
      assert fields == fields[..i + 1] + fields[i + 1..];
      FullSizeAppend(fields[..i + 1], fields[i + 1..]);
      assert fields[..i + 1] == fields[..i] + [fields[i]];
      FullSizeAppend(fields[..i], [fields[i]]);
      assert FullSize([fields[i]]) == FieldSize(fields[i]);
      var values := ValuesTotal(fields[i].values);
      size := size + |fields[i].name| + 64 + values;
      if size > MAX_HEADERS {
        CountIsWhole(fields, i + 1);
        return;
      }
    }
    assert fields[..|fields|] == fields;
    CountIsWhole(fields, |fields|);
  }

  /** `Set`: the field in place of one with the same name, or added. */
  function Replaced(fields: seq<Field>, f: Field): seq<Field> {
    if fields == [] then [f]
    else if fields[0].name == f.name then [f] + fields[1..]
    else [fields[0]] + Replaced(fields[1..], f)
  }

  lemma {:induction false} ReplacedSize(fields: seq<Field>, f: Field)
    ensures FullSize(Replaced(fields, f)) <= FullSize(fields) + FieldSize(f)
  {
    if fields == [] {
      assert [f][1..] == [];
    } else if fields[0].name == f.name {
      assert ([f] + fields[1..])[1..] == fields[1..];
    } else {
      ReplacedSize(fields[1..], f);
      var rest := Replaced(fields[1..], f);
      assert ([fields[0]] + rest)[1..] == rest;
    }
  }

  /** Every other field stays, in its place, and the new one is there. */
  lemma {:induction false} ReplacedIs(fields: seq<Field>, f: Field)
    ensures f in Replaced(fields, f)
    ensures forall g :: g in fields && g.name != f.name ==> g in Replaced(fields, f)
    ensures forall g :: g in Replaced(fields, f) ==> g == f || g in fields
  {
    if fields != [] {
      ReplacedIs(fields[1..], f);
      assert forall g :: g in fields <==> g == fields[0] || g in fields[1..];
    }
  }

  method ValuesTotal(values: seq<string>) returns (size: nat)
    ensures size == ValuesSize(values)
  {
    size := 0;
    var i := |values|;
    while i > 0
      invariant 0 <= i <= |values|
      invariant size == ValuesSize(values[i..])
    {
      i := i - 1;
      assert values[i..][1..] == values[i + 1..];
      size := size + |values[i]| + 64;
    }
    assert values[0..] == values;
  }

  // ---------- Cache-Control ----------

  /** A directive after splitting and lower-casing.  A missing, malformed or out-of-range
      argument of an age is `None`. */
  datatype Directive = Barring | Public(bare: bool) | MaxAge(age: Option<int>) | SharedAge(age: Option<int>) | Other

  datatype Policy = Policy(maxAge: int, sharedAge: int)

  function MaxAges(ds: seq<Directive>): seq<Option<int>> {
    if ds == [] then [] else
      MaxAges(ds[..|ds| - 1]) + if ds[|ds| - 1].MaxAge? then [ds[|ds| - 1].age] else []
  }

  function SharedAges(ds: seq<Directive>): seq<Option<int>> {
    if ds == [] then [] else
      SharedAges(ds[..|ds| - 1]) + if ds[|ds| - 1].SharedAge? then [ds[|ds| - 1].age] else []
  }

  predicate Tolerable(d: Directive) {
    match d
    case Barring => false
    case Public(bare) => bare
    case MaxAge(age) => age.Some? && age.value >= 0
    case SharedAge(age) => age.Some? && age.value >= 0
    case Other => true
  }

  predicate AllTolerable(ds: seq<Directive>) {
    ds == [] || (AllTolerable(ds[..|ds| - 1]) && Tolerable(ds[|ds| - 1]))
  }

  predicate SaysPublic(ds: seq<Directive>) {
    ds != [] && (SaysPublic(ds[..|ds| - 1]) || ds[|ds| - 1].Public?)
  }

  predicate OneAgeEach(ds: seq<Directive>) {
    |MaxAges(ds)| <= 1 && |SharedAges(ds)| <= 1
  }

  /** Public, nothing that bars sharing, and at most one well-formed age of each kind. */
  predicate Storable(ds: seq<Directive>) {
    AllTolerable(ds) && SaysPublic(ds) && OneAgeEach(ds)
  }

  /** Said without the lists of ages: which directives make a response storable. */
  ghost predicate MayShare(ds: seq<Directive>) {
    && Barring !in ds && Public(false) !in ds && Public(true) in ds
    && (forall i :: 0 <= i < |ds| && (ds[i].MaxAge? || ds[i].SharedAge?) ==> ds[i].age.Some? && ds[i].age.value >= 0)
    && (forall i, j :: 0 <= i < j < |ds| ==>
          !(ds[i].MaxAge? && ds[j].MaxAge?) && !(ds[i].SharedAge? && ds[j].SharedAge?))
  }

  lemma {:induction false} TolerableIs(ds: seq<Directive>)
    ensures AllTolerable(ds) <==> forall i :: 0 <= i < |ds| ==> Tolerable(ds[i])
    ensures SaysPublic(ds) <==> exists i :: 0 <= i < |ds| && ds[i].Public?
  {
    if ds != [] {
      var less := ds[..|ds| - 1];
      TolerableIs(less);
      assert forall i :: 0 <= i < |less| ==> less[i] == ds[i];
    }
  }

  /** Where the ages come from: none without a directive, and a second one with a second. */
  lemma {:induction false} MaxAgesAre(ds: seq<Directive>)
    ensures MaxAges(ds) == [] <==> forall i :: 0 <= i < |ds| ==> !ds[i].MaxAge?
    ensures |MaxAges(ds)| <= 1 <==> forall i, j :: 0 <= i < j < |ds| ==> !(ds[i].MaxAge? && ds[j].MaxAge?)
    ensures |MaxAges(ds)| == 1 ==> exists i :: 0 <= i < |ds| && ds[i] == MaxAge(MaxAges(ds)[0])
  {
    if ds != [] {
      var less, n := ds[..|ds| - 1], |ds| - 1;
      MaxAgesAre(less);
      assert forall i :: 0 <= i < n ==> less[i] == ds[i];
      if ds[n].MaxAge? && |MaxAges(less)| >= 1 {
        var i :| 0 <= i < n && less[i].MaxAge?;
        assert ds[i].MaxAge? && ds[n].MaxAge?;
      }
    }
  }

  lemma {:induction false} SharedAgesAre(ds: seq<Directive>)
    ensures SharedAges(ds) == [] <==> forall i :: 0 <= i < |ds| ==> !ds[i].SharedAge?
    ensures |SharedAges(ds)| <= 1 <==> forall i, j :: 0 <= i < j < |ds| ==> !(ds[i].SharedAge? && ds[j].SharedAge?)
    ensures |SharedAges(ds)| == 1 ==> exists i :: 0 <= i < |ds| && ds[i] == SharedAge(SharedAges(ds)[0])
  {
    if ds != [] {
      var less, n := ds[..|ds| - 1], |ds| - 1;
      SharedAgesAre(less);
      assert forall i :: 0 <= i < n ==> less[i] == ds[i];
      if ds[n].SharedAge? && |SharedAges(less)| >= 1 {
        var i :| 0 <= i < n && less[i].SharedAge?;
        assert ds[i].SharedAge? && ds[n].SharedAge?;
      }
    }
  }

  /** What is storable, for every list of directives. */
  lemma StorableIffShared(ds: seq<Directive>)
    ensures Storable(ds) <==> MayShare(ds)
  {
    hide AllTolerable, SaysPublic, MaxAges, SharedAges;
    TolerableIs(ds);
    MaxAgesAre(ds);
    SharedAgesAre(ds);
  }

  /** The ages of a storable response are those its directives give. */
  lemma PolicyTells(r: Response)
    requires Storable(r.directives)
    ensures forall a :: a >= 0 ==> (PolicyOf(r).maxAge == a <==> MaxAge(Some(a)) in r.directives)
    ensures forall a :: a >= 0 ==> (PolicyOf(r).sharedAge == a <==> SharedAge(Some(a)) in r.directives)
    ensures PolicyOf(r).maxAge >= -1 && PolicyOf(r).sharedAge >= -1
  {
    hide AllTolerable, SaysPublic, MaxAges, SharedAges;
    var ds := r.directives;
    AgesTolerable(ds);
    MaxAgesAre(ds);
    SharedAgesAre(ds);
    forall a | a >= 0 && MaxAge(Some(a)) in ds ensures PolicyOf(r).maxAge == a {
      var i :| 0 <= i < |ds| && ds[i] == MaxAge(Some(a));
      var k :| 0 <= k < |ds| && ds[k] == MaxAge(MaxAges(ds)[0]);
      assert k == i;
    }
    forall a | a >= 0 && SharedAge(Some(a)) in ds ensures PolicyOf(r).sharedAge == a {
      var i :| 0 <= i < |ds| && ds[i] == SharedAge(Some(a));
      var k :| 0 <= k < |ds| && ds[k] == SharedAge(SharedAges(ds)[0]);
      assert k == i;
    }
  }

  function Only(ages: seq<Option<int>>): int {
    if |ages| > 0 && ages[0].Some? then ages[0].value else -1
  }

  /** What a prefix violates, the whole violates. */
  lemma {:induction false} Violated(ds: seq<Directive>, i: nat)
    requires i <= |ds|
    ensures AllTolerable(ds) ==> AllTolerable(ds[..i])
    ensures |MaxAges(ds[..i])| <= |MaxAges(ds)| && |SharedAges(ds[..i])| <= |SharedAges(ds)|
    decreases |ds| - i
  {
    if i < |ds| {
      Violated(ds, i + 1);
      assert ds[..i + 1][..i] == ds[..i];
    } else {
      assert ds[..i] == ds;
    }
  }

  lemma {:induction false} AgesTolerable(ds: seq<Directive>)
    requires AllTolerable(ds)
    ensures forall a :: a in MaxAges(ds) + SharedAges(ds) ==> a.Some? && a.value >= 0
  {
    if ds != [] { AgesTolerable(ds[..|ds| - 1]); }
  }

  lemma NoDirectives()
    ensures AllTolerable([]) && !SaysPublic([]) && MaxAges([]) == [] && SharedAges([]) == []
  {
  }

  /** What one more directive adds. */
  lemma Extended(ds: seq<Directive>, i: nat)
    requires i < |ds|
    ensures AllTolerable(ds[..i + 1]) <==> AllTolerable(ds[..i]) && Tolerable(ds[i])
    ensures SaysPublic(ds[..i + 1]) <==> SaysPublic(ds[..i]) || ds[i].Public?
    ensures MaxAges(ds[..i + 1]) == MaxAges(ds[..i]) + if ds[i].MaxAge? then [ds[i].age] else []
    ensures SharedAges(ds[..i + 1]) == SharedAges(ds[..i]) + if ds[i].SharedAge? then [ds[i].age] else []
  {
    assert ds[..i + 1][..i] == ds[..i];
  }

  /** A prefix that cannot be stored rules out the whole. */
  lemma NotStorable(ds: seq<Directive>, i: nat)
    requires i <= |ds|
    ensures Storable(ds) ==> AllTolerable(ds[..i]) && |MaxAges(ds[..i])| <= 1 && |SharedAges(ds[..i])| <= 1
  {
    Violated(ds, i);
  }

  /** The loop over the directives. */
  method CacheControl(ds: seq<Directive>) returns (r: Option<Policy>)
    ensures r.Some? <==> Storable(ds)
    ensures r.Some? ==> r.value == Policy(Only(MaxAges(ds)), Only(SharedAges(ds)))
  {
    hide AllTolerable, SaysPublic, MaxAges, SharedAges;
    var open := false;
    var maxAge, sharedAge := -1, -1;
    NoDirectives();
    assert ds[..0] == [];
    for i := 0 to |ds|
      invariant AllTolerable(ds[..i]) && OneAgeEach(ds[..i])
      invariant open == SaysPublic(ds[..i])
      invariant maxAge == Only(MaxAges(ds[..i])) && sharedAge == Only(SharedAges(ds[..i]))
    {
      var d := ds[i];
      Extended(ds, i);
      Violated(ds, i + 1);
      AgesTolerable(ds[..i]);
      NotStorable(ds, i + 1);
      match d {
        case Barring => return None;
        case Public(bare) =>
          if !bare { return None; }
          open := true;
        case MaxAge(age) =>
          if age.None? || age.value < 0 || maxAge != -1 { return None; }
          maxAge := age.value;
        case SharedAge(age) =>
          if age.None? || age.value < 0 || sharedAge != -1 { return None; }
          sharedAge := age.value;
        case Other =>
      }
    }
    assert ds[..|ds|] == ds;
    r := if open then Some(Policy(maxAge, sharedAge)) else None;
  }

  // ---------- Freshness ----------

  /** A response header as far as eligibility reads it.  A header that is present and malformed is
      `Some(None)`. */
  datatype Response = Response(
    length: Option<int>,
    fields: seq<Field>,
    barred: bool,
    media: bool,
    vary: bool,
    directives: seq<Directive>,
    age: Option<Option<int>>,
    date: Option<Option<int>>,
    expires: Option<Option<int>>)

  /** Ages are parsed as 32-bit integers. */
  predicate Parsed(r: Response) {
    r.age.Some? && r.age.value.Some? ==> r.age.value.value < 2147483648
  }

  /** The difference of two times, saturating as the 64-bit duration type does. */
  function Since(a: int, b: int): (d: int)
    ensures -INT64_LIMIT <= d < INT64_LIMIT
  {
    Max(-INT64_LIMIT, Min(a - b, INT64_LIMIT - 1))
  }

  /** Whole seconds of a duration, rounded towards zero. */
  function Seconds(d: int): int {
    if d >= 0 then d / SECOND else -((-d) / SECOND)
  }

  /** The lifetime granted, in seconds: the handler's, cut by s-maxage or else by max-age. */
  function Lifetime(ttl: nat, p: Policy): int {
    if p.sharedAge >= 0 then Min(ttl, p.sharedAge)
    else if p.maxAge >= 0 then Min(ttl, p.maxAge)
    else ttl
  }

  predicate WellDated(r: Response, p: Policy) {
    && (r.age.Some? ==> r.age.value.Some? && r.age.value.value >= 0)
    && (r.date.Some? ==> r.date.value.Some?)
    && (p.sharedAge < 0 && p.maxAge < 0 && r.expires.Some? ==> r.expires.value.Some?)
  }

  function DeclaredAge(r: Response): int {
    if r.age.Some? && r.age.value.Some? then r.age.value.value else 0
  }

  /** The age of the response when its request started, in seconds. */
  function InitialAge(r: Response, now: int): int {
    if r.date.Some? && r.date.value.Some? then Max(DeclaredAge(r), Seconds(Since(now, r.date.value.value)))
    else DeclaredAge(r)
  }

  /** How long the response may be served from the start of its request. */
  function Remaining(r: Response, p: Policy, ttl: nat, now: int): int {
    var d := (Lifetime(ttl, p) - InitialAge(r, now)) * SECOND;
    if p.sharedAge < 0 && p.maxAge < 0 && r.expires.Some? && r.expires.value.Some?
    then Min(d, Since(r.expires.value.value, now)) else d
  }

  lemma SecondsBounded(d: int)
    requires -INT64_LIMIT <= d < INT64_LIMIT
    ensures -9223372036 <= Seconds(d) <= 9223372036
    ensures d >= 0 ==> Seconds(d) * SECOND <= d < Seconds(d) * SECOND + SECOND
    ensures d < 0 ==> Seconds(d) <= 0
  {
  }

  /** The multiplication that makes the duration stays within 64 bits. */
  lemma DurationFits(r: Response, p: Policy, ttl: nat, now: int)
    requires Parsed(r) && WellDated(r, p) && ttl <= 3600
    ensures 0 <= InitialAge(r, now) <= 9223372036
    ensures -INT64_LIMIT <= (Lifetime(ttl, p) - InitialAge(r, now)) * SECOND < INT64_LIMIT
  {
    if r.date.Some? { SecondsBounded(Since(now, r.date.value.value)); }
  }

  function PolicyOf(r: Response): Policy {
    Policy(Only(MaxAges(r.directives)), Only(SharedAges(r.directives)))
  }

  datatype Grant = Grant(length: nat, duration: int, age: int)

  ghost predicate Eligible(r: Response, ttl: nat, now: int) {
    && r.length.Some? && 0 <= r.length.value <= MAX_BODY && FullSize(r.fields) <= MAX_HEADERS
    && !r.barred && r.media && r.vary && Storable(r.directives)
    && WellDated(r, PolicyOf(r)) && Remaining(r, PolicyOf(r), ttl, now) > 0
  }

  /** `eligibleResponse` */
  method EligibleResponse(r: Response, ttl: nat, now: int) returns (g: Option<Grant>)
    requires Parsed(r) && ttl <= 3600
    ensures g.Some? <==> Eligible(r, ttl, now)
    ensures g.Some? ==> g.value == Grant(r.length.value, Remaining(r, PolicyOf(r), ttl, now), InitialAge(r, now))
    ensures g.Some? ==> MayShare(r.directives)
  {
    StorableIffShared(r.directives);
    hide Storable, MayShare;
    if r.length.None? || r.length.value < 0 || r.length.value > MAX_BODY { return None; }
    var size := HeaderSize(r.fields);
    if size > MAX_HEADERS || r.barred || !r.media || !r.vary { return None; }
    var policy := CacheControl(r.directives);
    if policy.None? { return None; }
    var p := policy.value;
    var freshness := Lifetime(ttl, p);
    var age := 0;
    if r.age.Some? {
      if r.age.value.None? || r.age.value.value < 0 { return None; }
      age := r.age.value.value;
    }
    if r.date.Some? {
      if r.date.value.None? { return None; }
      age := Max(age, Seconds(Since(now, r.date.value.value)));
    }
    var duration := (freshness - age) * SECOND;
    if p.sharedAge < 0 && p.maxAge < 0 && r.expires.Some? {
      if r.expires.value.None? { return None; }
      duration := Min(duration, Since(r.expires.value.value, now));
    }
    if duration <= 0 { return None; }
    g := Some(Grant(r.length.value, duration, age));
  }

  /** The grant is the longest that every source of age and of lifetime allows: the handler's limit,
      s-maxage or else max-age, and without both Expires; the age declared and the age since Date. */
  lemma LongestGrant(r: Response, ttl: nat, now: int, d: int)
    requires Storable(r.directives) && WellDated(r, PolicyOf(r))
    ensures d <= Remaining(r, PolicyOf(r), ttl, now) <==> Allowed(r, ttl, now, d)
  {
    hide Storable;
    PolicyTells(r);
    var p := PolicyOf(r);
    if p.sharedAge >= 0 { assert SharedAge(Some(p.sharedAge)) in r.directives; }
    if p.maxAge >= 0 { assert MaxAge(Some(p.maxAge)) in r.directives; }
  }

  /** A duration that keeps within every one of them. */
  ghost predicate Allowed(r: Response, ttl: nat, now: int, d: int) {
    && Within(r, ttl, now, d)
    && (forall a :: a >= 0 && SharedAge(Some(a)) in r.directives ==> Within(r, a, now, d))
    && (forall a :: a >= 0 && MaxAge(Some(a)) in r.directives ==> Within(r, a, now, d) || Shared(r))
    && (r.expires.Some? && r.expires.value.Some? && !Shared(r) && !Aged(r) ==> d <= Since(r.expires.value.value, now))
  }

  ghost predicate Shared(r: Response) {
    exists a :: a >= 0 && SharedAge(Some(a)) in r.directives
  }

  ghost predicate Aged(r: Response) {
    exists a :: a >= 0 && MaxAge(Some(a)) in r.directives
  }

  /** No older than `limit` seconds by then, whichever age is taken. */
  ghost predicate Within(r: Response, limit: nat, now: int, d: int) {
    && d <= (limit - if r.age.Some? && r.age.value.Some? then r.age.value.value else 0) * SECOND
    && (r.date.Some? && r.date.value.Some? ==> d <= (limit - Seconds(Since(now, r.date.value.value))) * SECOND)
  }

  /** Section 4.2.3 of RFC 9111, in nanoseconds: the age of a response that was asked for at
      `requested` and received at `received`. */
  function CurrentAge(r: Response, requested: int, received: int, now: int): int {
    var date := if r.date.Some? then r.date.value else None;
    var apparent := if date.Some? then Max(0, received - date.value) else 0;
    var corrected := DeclaredAge(r) * SECOND + (received - requested);
    Max(apparent, corrected) + (now - received)
  }

  /** Within its granted duration a response is fresh. */
  lemma GrantIsFresh(r: Response, ttl: nat, started: int, received: int, now: int)
    requires Parsed(r) && ttl <= 3600 && Eligible(r, ttl, started)
    requires started <= received <= now < started + Remaining(r, PolicyOf(r), ttl, started)
    ensures
      var p := PolicyOf(r);
      var lifetime := Lifetime(ttl, p);
      && InitialAge(r, started) * SECOND + (now - started) < lifetime * SECOND
      && lifetime <= ttl
      && (p.sharedAge >= 0 ==> lifetime <= p.sharedAge)
      && (p.sharedAge < 0 && p.maxAge >= 0 ==> lifetime <= p.maxAge)
      && (p.sharedAge < 0 && p.maxAge < 0 && r.expires.Some? ==> r.expires.value.Some? && now < r.expires.value.value)
      && CurrentAge(r, started, received, now) < (lifetime + 1) * SECOND
  {
    DurationFits(r, PolicyOf(r), ttl, started);
    if r.date.Some? { SecondsBounded(Since(started, r.date.value.value)); }
  }
}
