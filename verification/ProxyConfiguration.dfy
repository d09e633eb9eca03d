/** Validation of the desired proxy configuration and its canonical form.

    The checks of single fields, the certificate parser and the digest are left open as rules;
    what is modelled is how they are combined over hosts, domains, policies and certificate
    authorities, and the order in which everything is put. */
module ProxyConfiguration {
  import opened Durability
  import opened KeyOrder

  datatype Host<R> = Host(id: Key, domains: seq<Key>, body: R)

  datatype Tls = Tls(ca: Option<Key>, rest: nat)

  datatype Policy = Policy(id: Key, content: nat)

  /** A pool in the order its members are tried; failover raises the version. */
  datatype Pool = Pool(members: seq<Key>, failover: bool)

  datatype Forward = Forward(https: bool, tls: Option<Tls>, policy: Option<Policy>, pool: Option<Pool>, rest: nat)

  datatype Redirect = Redirect(rest: nat)

  datatype Authority = Authority(id: Key, pem: Key, fingerprint: Key)

  datatype Certified = Certified(pem: Key, fingerprint: Key)

  datatype Request = Request(
    version: nat,
    revision: Key,
    hosts: seq<Host<Forward>>,
    redirects: seq<Host<Redirect>>,
    settings: nat,
    authorities: seq<Authority>,
    site: nat)

  datatype Validated = Validated(
    revision: Key,
    hosts: seq<Host<Forward>>,
    redirects: seq<Host<Redirect>>,
    settings: nat,
    authorities: seq<Authority>,
    site: nat)

  datatype Snapshot = Snapshot(
    version: nat,
    hosts: seq<Host<Forward>>,
    redirects: seq<Host<Redirect>>,
    settings: nat,
    authorities: seq<Authority>,
    site: nat)

  /** The checks of single fields, the certificate parser at one moment, and the digest. */
  datatype Rules = Rules(
    uuid: Key -> bool,
    uuid7: Key -> bool,
    domain: Key -> bool,
    forward: Forward -> bool,
    policy: Policy -> bool,
    redirect: Redirect -> bool,
    settings: nat -> bool,
    site: nat -> bool,
    revision: Key -> bool,
    certify: Key -> Option<Certified>,
    digest: Snapshot -> Key)

  const MAX_HOSTS := 1_000
  const MAX_DOMAINS_PER_HOST := 50
  const MAX_TOTAL_DOMAINS := 50_000

  // ---------- The canonical form ----------

  function Own(k: Key): Key {
    k
  }

  function IdOf<R>(h: Host<R>): Key {
    h.id
  }

  function AuthorityId(a: Authority): Key {
    a.id
  }

  /** A host with its domains in order. */
  function Neat<R>(h: Host<R>): Host<R> {
    h.(domains := Sort(h.domains, Own))
  }

  function AllNeat<R>(hosts: seq<Host<R>>): (r: seq<Host<R>>)
    ensures |r| == |hosts| && forall i :: 0 <= i < |r| ==> r[i] == Neat(hosts[i])
  {
    seq(|hosts|, i requires 0 <= i < |hosts| => Neat(hosts[i]))
  }

  function Canonical<R>(hosts: seq<Host<R>>): seq<Host<R>> {
    Sort(AllNeat(hosts), IdOf)
  }

  function CanonicalAuthorities(authorities: seq<Authority>): seq<Authority> {
    Sort(authorities, AuthorityId)
  }

  /** `configuration_version`. */
  function Version(hosts: seq<Host<Forward>>): nat {
    if exists h :: h in hosts && h.body.pool.Some? && h.body.pool.value.failover then 9
    else if exists h :: h in hosts && h.body.pool.Some? then 8
    else 7
  }

  /** `revision_for_full_configuration`. */
  function Revision(rules: Rules, hosts: seq<Host<Forward>>, redirects: seq<Host<Redirect>>, settings: nat,
                    authorities: seq<Authority>, site: nat): Key {
    rules.digest(Snapshot(Version(hosts), Canonical(hosts), Canonical(redirects), settings,
        CanonicalAuthorities(authorities), site))
  }

  // ---------- What is acceptable ----------

  predicate Shaped<R>(rules: Rules, h: Host<R>) {
    && rules.uuid(h.id) && h.domains != [] && |h.domains| <= MAX_DOMAINS_PER_HOST
    && forall i :: 0 <= i < |h.domains| ==> rules.domain(h.domains[i])
  }

  predicate Forwards(rules: Rules, f: Forward) {
    && rules.forward(f)
    && (f.policy.Some? ==> rules.uuid7(f.policy.value.id) && rules.policy(f.policy.value))
  }

  /** Only an encrypted upstream has TLS settings, and it has them. */
  predicate Secured(f: Forward) {
    f.https == f.tls.Some?
  }

  ghost predicate HostsSound(rules: Rules, hosts: seq<Host<Forward>>) {
    && (forall h :: h in hosts ==> Shaped(rules, h) && Forwards(rules, h.body) && Secured(h.body))
    && (forall g, h :: g in hosts && h in hosts ==> Agree(g.body.policy, h.body.policy))
  }

  /** Two uses of one policy id mean one policy. */
  predicate Agree(a: Option<Policy>, b: Option<Policy>) {
    a.Some? && b.Some? && a.value.id == b.value.id ==> a == b
  }

  ghost predicate RedirectsSound(rules: Rules, redirects: seq<Host<Redirect>>) {
    forall h :: h in redirects ==> Shaped(rules, h) && rules.redirect(h.body)
  }

  function IdBag<R>(h: Host<R>): multiset<Key> {
    multiset{h.id}
  }

  function DomainBag<R>(h: Host<R>): multiset<Key> {
    multiset(h.domains)
  }

  ghost function Ids(hosts: seq<Host<Forward>>, redirects: seq<Host<Redirect>>): multiset<Key> {
    Bag(hosts, IdBag) + Bag(redirects, IdBag)
  }

  ghost function Domains(hosts: seq<Host<Forward>>, redirects: seq<Host<Redirect>>): multiset<Key> {
    Bag(hosts, DomainBag) + Bag(redirects, DomainBag)
  }

  function AuthorityBag(a: Authority): multiset<Key> {
    multiset{a.id}
  }

  predicate Certifies(rules: Rules, a: Authority) {
    rules.uuid7(a.id) && rules.certify(a.pem).Some? && rules.certify(a.pem).value.fingerprint == a.fingerprint
  }

  ghost predicate AuthoritiesSound(rules: Rules, authorities: seq<Authority>) {
    (forall a :: a in authorities ==> Certifies(rules, a)) && Once(Bag(authorities, AuthorityBag))
  }

  function Renewed(rules: Rules, a: Authority): Authority {
    var c := rules.certify(a.pem);
    if c.None? then a else a.(pem := c.value.pem, fingerprint := c.value.fingerprint)
  }

  function AllRenewed(rules: Rules, authorities: seq<Authority>): (r: seq<Authority>)
    ensures |r| == |authorities| && forall i :: 0 <= i < |r| ==> r[i] == Renewed(rules, authorities[i])
  {
    seq(|authorities|, i requires 0 <= i < |authorities| => Renewed(rules, authorities[i]))
  }

  ghost predicate Refers(hosts: seq<Host<Forward>>, id: Key) {
    exists h :: h in hosts && h.body.tls.Some? && h.body.tls.value.ca == Some(id)
  }

  ghost predicate Trusts(authorities: seq<Authority>, id: Key) {
    exists a :: a in authorities && a.id == id
  }

  ghost predicate Acceptable(rules: Rules, r: Request) {
    && r.version == Version(r.hosts) && rules.revision(r.revision)
    && rules.settings(r.settings) && rules.site(r.site)
    && |r.hosts| + |r.redirects| <= MAX_HOSTS
    && HostsSound(rules, r.hosts) && RedirectsSound(rules, r.redirects)
    && Once(Ids(r.hosts, r.redirects))
    && Once(Domains(r.hosts, r.redirects)) && |Domains(r.hosts, r.redirects)| <= MAX_TOTAL_DOMAINS
    && AuthoritiesSound(rules, r.authorities)
    && (forall id :: Refers(r.hosts, id) <==> Trusts(r.authorities, id))
  }

  /** `validate_proxy_config`. */
  ghost function Validate(rules: Rules, r: Request): Option<Validated> {
    if !Acceptable(rules, r) then None
    else
      var hosts, redirects := Canonical(r.hosts), Canonical(r.redirects);
      var authorities := CanonicalAuthorities(AllRenewed(rules, r.authorities));
      if r.revision != Revision(rules, hosts, redirects, r.settings, authorities, r.site) then None
      else Some(Validated(r.revision, hosts, redirects, r.settings, authorities, r.site))
  }

  /** What `persist_active_configuration` writes. */
  function Persisted(v: Validated): Request {
    Request(Version(v.hosts), v.revision, v.hosts, v.redirects, v.settings, v.authorities, v.site)
  }

  // ---------- Reordering ----------

  /** The same hosts in another order, with their domains in another order. */
  ghost predicate Same<R(!new)>(a: seq<Host<R>>, b: seq<Host<R>>) {
    multiset(AllNeat(a)) == multiset(AllNeat(b))
  }

  lemma NeatKeeps<R(!new)>(rules: Rules, h: Host<R>)
    ensures Shaped(rules, Neat(h)) <==> Shaped(rules, h)
    ensures DomainBag(Neat(h)) == DomainBag(h)
  {
    SortIs(h.domains, Own);
    var sorted := Sort(h.domains, Own);
    assert forall d :: d in sorted <==> d in multiset(sorted);
    assert forall d :: d in h.domains <==> d in multiset(h.domains);
    assert forall i :: 0 <= i < |sorted| ==> sorted[i] in h.domains;
    assert forall i :: 0 <= i < |h.domains| ==> h.domains[i] in sorted;
  }

  lemma Counterpart<R(!new)>(a: seq<Host<R>>, b: seq<Host<R>>, h: Host<R>) returns (g: Host<R>)
    requires Same(a, b) && h in a
    ensures g in b && Neat(g) == Neat(h)
  {
    var i :| 0 <= i < |a| && a[i] == h;
    assert AllNeat(a)[i] in multiset(AllNeat(b));
    var k :| 0 <= k < |b| && AllNeat(b)[k] == Neat(h);
    g := b[k];
  }

  lemma SameHosts(rules: Rules, a: seq<Host<Forward>>, b: seq<Host<Forward>>)
    requires Same(a, b)
    ensures |a| == |b|
    ensures HostsSound(rules, a) ==> HostsSound(rules, b)
    ensures forall id :: Refers(a, id) ==> Refers(b, id)
  {
    assert |multiset(AllNeat(a))| == |a| && |multiset(AllNeat(b))| == |b|;
    if HostsSound(rules, a) {
      forall h | h in b ensures Shaped(rules, h) && Forwards(rules, h.body) && Secured(h.body) {
        var g := Counterpart(b, a, h);
        NeatKeeps(rules, g);
        NeatKeeps(rules, h);
      }
      forall g, h | g in b && h in b ensures Agree(g.body.policy, h.body.policy) {
        var x := Counterpart(b, a, g);
        var y := Counterpart(b, a, h);
        assert Agree(x.body.policy, y.body.policy);
      }
    }
    forall id | Refers(a, id) ensures Refers(b, id) {
      var h :| h in a && h.body.tls.Some? && h.body.tls.value.ca == Some(id);
      var g := Counterpart(a, b, h);
    }
  }

  lemma SameRedirects(rules: Rules, a: seq<Host<Redirect>>, b: seq<Host<Redirect>>)
    requires Same(a, b)
    ensures |a| == |b|
    ensures RedirectsSound(rules, a) ==> RedirectsSound(rules, b)
  {
    assert |multiset(AllNeat(a))| == |a| && |multiset(AllNeat(b))| == |b|;
    if RedirectsSound(rules, a) {
      forall h | h in b ensures Shaped(rules, h) && rules.redirect(h.body) {
        var g := Counterpart(b, a, h);
        NeatKeeps(rules, g);
        NeatKeeps(rules, h);
      }
    }
  }

  lemma SameVersion(a: seq<Host<Forward>>, b: seq<Host<Forward>>)
    requires Same(a, b)
    ensures Version(a) == Version(b)
  {
    VersionAtMost(a, b);
    VersionAtMost(b, a);
  }

  lemma VersionAtMost(a: seq<Host<Forward>>, b: seq<Host<Forward>>)
    requires Same(a, b)
    ensures Version(a) <= Version(b)
  {
    if h :| h in a && h.body.pool.Some? && h.body.pool.value.failover {
      var g := Counterpart(a, b, h);
    } else if h :| h in a && h.body.pool.Some? {
      var g := Counterpart(a, b, h);
    }
  }

  lemma {:induction false} NeatBags<R(!new)>(hosts: seq<Host<R>>)
    ensures Bag(AllNeat(hosts), IdBag) == Bag(hosts, IdBag)
    ensures Bag(AllNeat(hosts), DomainBag) == Bag(hosts, DomainBag)
  {
    if hosts != [] {
      assert AllNeat(hosts)[1..] == AllNeat(hosts[1..]);
      NeatBags(hosts[1..]);
      SortIs(hosts[0].domains, Own);
    }
  }

  lemma SameBags<R(!new)>(a: seq<Host<R>>, b: seq<Host<R>>)
    requires Same(a, b)
    ensures Bag(a, IdBag) == Bag(b, IdBag) && Bag(a, DomainBag) == Bag(b, DomainBag)
  {
    NeatBags(a);
    NeatBags(b);
    BagAgrees(AllNeat(a), AllNeat(b), IdBag);
    BagAgrees(AllNeat(a), AllNeat(b), DomainBag);
  }

  /** Where no id occurs twice, an id tells its host. */
  lemma IdsTell<R(!new)>(hosts: seq<Host<R>>)
    requires forall k :: Bag(hosts, IdBag)[k] <= 1
    ensures KeysTell(hosts, IdOf)
  {
    forall i, k | 0 <= i < k < |hosts| ensures hosts[i].id != hosts[k].id {
      BagWithout(hosts, k, IdBag);
      var less := hosts[..k] + hosts[k + 1..];
      assert less[i] == hosts[i];
      BagWithout(less, i, IdBag);
      assert hosts[i].id == hosts[k].id ==> Bag(hosts, IdBag)[hosts[k].id] >= 2;
    }
  }

  lemma NeatTells<R(!new)>(hosts: seq<Host<R>>)
    requires KeysTell(hosts, IdOf)
    ensures KeysTell(AllNeat(hosts), IdOf)
  {
    forall i, k | 0 <= i < |hosts| && 0 <= k < |hosts| && AllNeat(hosts)[i].id == AllNeat(hosts)[k].id
      ensures AllNeat(hosts)[i] == AllNeat(hosts)[k]
    {
      assert IdOf(hosts[i]) == IdOf(hosts[k]);
    }
  }

  /** The canonical list does not depend on the order given. */
  lemma SameCanonical<R(!new)>(a: seq<Host<R>>, b: seq<Host<R>>)
    requires Same(a, b) && forall k :: Bag(a, IdBag)[k] <= 1
    ensures Canonical(a) == Canonical(b)
  {
    IdsTell(a);
    NeatTells(a);
    SortAgrees(AllNeat(a), AllNeat(b), IdOf);
  }

  /** The canonical list is the same list in order, and its own canonical list. */
  lemma CanonicalIsSame<R(!new)>(hosts: seq<Host<R>>)
    ensures Same(hosts, Canonical(hosts))
  {
    var sorted := Canonical(hosts);
    SortIs(AllNeat(hosts), IdOf);
    forall i | 0 <= i < |sorted| ensures Neat(sorted[i]) == sorted[i] {
      assert sorted[i] in multiset(AllNeat(hosts));
      var k :| 0 <= k < |hosts| && AllNeat(hosts)[k] == sorted[i];
      NeatTwice(hosts[k]);
    }
    assert AllNeat(sorted) == sorted;
  }

  lemma NeatTwice<R(!new)>(h: Host<R>)
    ensures Neat(Neat(h)) == Neat(h)
  {
    SortIs(h.domains, Own);
    SortAgrees(Sort(h.domains, Own), h.domains, Own);
  }

  // ---------- Authorities ----------

  lemma {:induction false} RenewedBag(rules: Rules, authorities: seq<Authority>)
    ensures Bag(AllRenewed(rules, authorities), AuthorityBag) == Bag(authorities, AuthorityBag)
  {
    if authorities != [] {
      assert AllRenewed(rules, authorities)[1..] == AllRenewed(rules, authorities[1..]);
      RenewedBag(rules, authorities[1..]);
    }
  }

  lemma AuthoritiesTell(authorities: seq<Authority>)
    requires Once(Bag(authorities, AuthorityBag))
    ensures KeysTell(authorities, AuthorityId)
  {
    forall i, k | 0 <= i < k < |authorities| ensures authorities[i].id != authorities[k].id {
      BagWithout(authorities, k, AuthorityBag);
      var less := authorities[..k] + authorities[k + 1..];
      assert less[i] == authorities[i];
      BagWithout(less, i, AuthorityBag);
      assert authorities[i].id == authorities[k].id ==> Bag(authorities, AuthorityBag)[authorities[k].id] >= 2;
    }
  }

  lemma {:induction false} RenewedAgrees(rules: Rules, a: seq<Authority>, b: seq<Authority>)
    requires multiset(a) == multiset(b)
    ensures multiset(AllRenewed(rules, a)) == multiset(AllRenewed(rules, b))
  {
    hide AllRenewed, Renewed;
    if a == [] {
      assert |multiset(b)| == |b|;
      assert b == [];
    } else {
      var i := Elsewhere(a, b);
      var less := b[..i] + b[i + 1..];
      RenewedAgrees(rules, a[1..], less);
      RenewedWithout(rules, a, 0);
      assert a[..0] + a[1..] == a[1..];
      RenewedWithout(rules, b, i);
    }
  }

  lemma Elsewhere<T(!new)>(a: seq<T>, b: seq<T>) returns (i: nat)
    requires a != [] && multiset(a) == multiset(b)
    ensures i < |b| && b[i] == a[0] && multiset(a[1..]) == multiset(b[..i] + b[i + 1..])
  {
    assert a[0] in multiset(b);
    i :| 0 <= i < |b| && b[i] == a[0];
    TailBag(a);
    WithoutOne(b, i);
  }

  lemma RenewedWithout(rules: Rules, s: seq<Authority>, i: nat)
    requires i < |s|
    ensures multiset(AllRenewed(rules, s)) ==
              multiset(AllRenewed(rules, s[..i] + s[i + 1..])) + multiset{Renewed(rules, s[i])}
  {
    var all, less := AllRenewed(rules, s), AllRenewed(rules, s[..i] + s[i + 1..]);
    assert all == less[..i] + [all[i]] + less[i..];
    assert less == less[..i] + less[i..];
  }

  /** The same authorities in another order, judged alike. */
  ghost predicate SameAuthorities(rules: Rules, a: seq<Authority>, b: seq<Authority>) {
    && (AuthoritiesSound(rules, a) <==> AuthoritiesSound(rules, b))
    && multiset(AllRenewed(rules, a)) == multiset(AllRenewed(rules, b))
  }

  lemma SameTrusts(rules: Rules, a: seq<Authority>, b: seq<Authority>)
    requires multiset(AllRenewed(rules, a)) == multiset(AllRenewed(rules, b))
    ensures forall id :: Trusts(a, id) ==> Trusts(b, id)
  {
    forall id | Trusts(a, id) ensures Trusts(b, id) {
      var x :| x in a && x.id == id;
      var i :| 0 <= i < |a| && a[i] == x;
      assert AllRenewed(rules, a)[i] in multiset(AllRenewed(rules, b));
      var k :| 0 <= k < |b| && AllRenewed(rules, b)[k] == Renewed(rules, x);
      assert b[k] in b && b[k].id == id;
    }
  }

  lemma SameCanonicalAuthorities(rules: Rules, a: seq<Authority>, b: seq<Authority>)
    requires SameAuthorities(rules, a, b) && AuthoritiesSound(rules, a)
    ensures CanonicalAuthorities(AllRenewed(rules, a)) == CanonicalAuthorities(AllRenewed(rules, b))
  {
    RenewedBag(rules, a);
    AuthoritiesTell(AllRenewed(rules, a));
    SortAgrees(AllRenewed(rules, a), AllRenewed(rules, b), AuthorityId);
  }

  // ---------- Validation forgets order ----------

  ghost predicate Alike(rules: Rules, a: Request, b: Request) {
    && a.version == b.version && a.revision == b.revision && a.settings == b.settings && a.site == b.site
    && Same(a.hosts, b.hosts) && Same(a.redirects, b.redirects) && SameAuthorities(rules, a.authorities, b.authorities)
  }

  lemma AlikeAcceptable(rules: Rules, a: Request, b: Request)
    requires Alike(rules, a, b) && Acceptable(rules, a)
    ensures Acceptable(rules, b)
  {
    hide HostsSound, RedirectsSound, AuthoritiesSound, Refers, Trusts, Version, Same, Once;
    SameHosts(rules, a.hosts, b.hosts);
    SameSwap(a.hosts, b.hosts);
    SameHosts(rules, b.hosts, a.hosts);
    SameRedirects(rules, a.redirects, b.redirects);
    SameVersion(a.hosts, b.hosts);
    SameBags(a.hosts, b.hosts);
    SameBags(a.redirects, b.redirects);
    SameTrusts(rules, a.authorities, b.authorities);
    SameTrusts(rules, b.authorities, a.authorities);
  }

  lemma SameSwap<R(!new)>(a: seq<Host<R>>, b: seq<Host<R>>)
    requires Same(a, b)
    ensures Same(b, a)
  {
  }

  lemma AlikeValidates(rules: Rules, a: Request, b: Request)
    requires Alike(rules, a, b)
    ensures Validate(rules, a) == Validate(rules, b)
  {
    hide Acceptable, Canonical, CanonicalAuthorities, Same, Revision;
    SameSwap(a.hosts, b.hosts);
    SameSwap(a.redirects, b.redirects);
    if Acceptable(rules, a) { AlikeAcceptable(rules, a, b); }
    if Acceptable(rules, b) { AlikeAcceptable(rules, b, a); }
    if Acceptable(rules, a) {
      AcceptableIds(rules, a);
      SameCanonical(a.hosts, b.hosts);
      SameCanonical(a.redirects, b.redirects);
      SameCanonicalAuthorities(rules, a.authorities, b.authorities);
    }
  }

  lemma AcceptableIds(rules: Rules, r: Request)
    requires Acceptable(rules, r)
    ensures AuthoritiesSound(rules, r.authorities)
    ensures forall k :: Bag(r.hosts, IdBag)[k] <= 1
    ensures forall k :: Bag(r.redirects, IdBag)[k] <= 1
  {
    forall k ensures Bag(r.hosts, IdBag)[k] <= 1 && Bag(r.redirects, IdBag)[k] <= 1 {
      assert Ids(r.hosts, r.redirects)[k] <= 1;
    }
  }

  /** Reordering hosts, the domains of a host or authorities changes neither the verdict nor the
      validated configuration. */
  lemma OrderDoesNotMatter(rules: Rules, a: Request, b: Request)
    requires a == b.(hosts := a.hosts, redirects := a.redirects, authorities := a.authorities)
    requires Same(a.hosts, b.hosts) && Same(a.redirects, b.redirects)
    requires multiset(a.authorities) == multiset(b.authorities)
    ensures Validate(rules, a) == Validate(rules, b)
  {
    RenewedAgrees(rules, a.authorities, b.authorities);
    BagAgrees(a.authorities, b.authorities, AuthorityBag);
    assert forall x :: x in a.authorities <==> x in multiset(a.authorities);
    assert forall x :: x in b.authorities <==> x in multiset(b.authorities);
    AlikeValidates(rules, a, b);
  }

  /** The revision of a set of hosts and authorities does not depend on their order either. */
  lemma RevisionForgetsOrder(rules: Rules, a: Request, b: Request)
    requires Acceptable(rules, a) && a == b.(hosts := a.hosts, redirects := a.redirects, authorities := a.authorities)
    requires Same(a.hosts, b.hosts) && Same(a.redirects, b.redirects)
    requires multiset(a.authorities) == multiset(b.authorities)
    ensures Revision(rules, a.hosts, a.redirects, a.settings, a.authorities, a.site) ==
            Revision(rules, b.hosts, b.redirects, b.settings, b.authorities, b.site)
  {
    hide Acceptable, Canonical, Same, Version;
    AcceptableIds(rules, a);
    SameVersion(a.hosts, b.hosts);
    SameCanonical(a.hosts, b.hosts);
    SameCanonical(a.redirects, b.redirects);
    AuthoritiesTell(a.authorities);
    SortAgrees(a.authorities, b.authorities, AuthorityId);
  }

  // ---------- A revision tells its configuration ----------

  /** No two snapshots have one digest. */
  ghost predicate Collisionless(rules: Rules) {
    forall s, t :: rules.digest(s) == rules.digest(t) ==> s == t
  }

  /** What the order of domains does not change. */
  lemma NeatMeans<R(!new)>(g: Host<R>, h: Host<R>)
    ensures Neat(g) == Neat(h) <==> g.id == h.id && g.body == h.body && multiset(g.domains) == multiset(h.domains)
  {
    SortIs(g.domains, Own);
    SortIs(h.domains, Own);
    if multiset(g.domains) == multiset(h.domains) { SortAgrees(g.domains, h.domains, Own); }
  }

  /** The version, by what the hosts have: 9 exactly with a failover pool, 8 exactly with pools and
      none of them failover, 7 exactly without pools. */
  lemma VersionIs(hosts: seq<Host<Forward>>)
    ensures Version(hosts) == 9 <==>
              exists i :: 0 <= i < |hosts| && hosts[i].body.pool.Some? && hosts[i].body.pool.value.failover
    ensures Version(hosts) == 7 <==> forall i :: 0 <= i < |hosts| ==> hosts[i].body.pool.None?
    ensures Version(hosts) == 7 || Version(hosts) == 8 || Version(hosts) == 9
  {
    if h :| h in hosts && h.body.pool.Some? && h.body.pool.value.failover {
      var i :| 0 <= i < |hosts| && hosts[i] == h;
    }
    if h :| h in hosts && h.body.pool.Some? {
      var i :| 0 <= i < |hosts| && hosts[i] == h;
    }
    assert forall i :: 0 <= i < |hosts| ==> hosts[i] in hosts;
  }

  lemma CanonicalTells<R(!new)>(a: seq<Host<R>>, b: seq<Host<R>>)
    requires Canonical(a) == Canonical(b)
    ensures Same(a, b)
  {
    hide Canonical;
    CanonicalIsSame(a);
    CanonicalIsSame(b);
  }

  /** Equal revisions come from the same hosts, redirects, settings, site and authorities. */
  lemma RevisionTells(rules: Rules, a: Request, b: Request)
    requires Collisionless(rules)
    requires Revision(rules, a.hosts, a.redirects, a.settings, a.authorities, a.site) ==
             Revision(rules, b.hosts, b.redirects, b.settings, b.authorities, b.site)
    ensures Same(a.hosts, b.hosts) && Same(a.redirects, b.redirects)
    ensures a.settings == b.settings && a.site == b.site && multiset(a.authorities) == multiset(b.authorities)
  {
    hide Canonical, Version, Same;
    CanonicalTells(a.hosts, b.hosts);
    CanonicalTells(a.redirects, b.redirects);
    SortIs(a.authorities, AuthorityId);
    SortIs(b.authorities, AuthorityId);
  }

  /** For every acceptable request: another has its revision if and only if it differs from it in
      order alone. */
  lemma RevisionIff(rules: Rules, a: Request, b: Request)
    requires Collisionless(rules) && Acceptable(rules, a)
    ensures Revision(rules, a.hosts, a.redirects, a.settings, a.authorities, a.site) ==
            Revision(rules, b.hosts, b.redirects, b.settings, b.authorities, b.site) <==>
              && Same(a.hosts, b.hosts) && Same(a.redirects, b.redirects)
              && a.settings == b.settings && a.site == b.site && multiset(a.authorities) == multiset(b.authorities)
  {
    hide Acceptable, Same, Revision, Collisionless;
    var c := b.(version := a.version, revision := a.revision);
    if Revision(rules, a.hosts, a.redirects, a.settings, a.authorities, a.site) ==
       Revision(rules, b.hosts, b.redirects, b.settings, b.authorities, b.site)
    {
      RevisionTells(rules, a, b);
    }
    if && Same(a.hosts, b.hosts) && Same(a.redirects, b.redirects)
       && a.settings == b.settings && a.site == b.site && multiset(a.authorities) == multiset(b.authorities)
    {
      RevisionForgetsOrder(rules, a, c);
    }
  }

  lemma CanonicalTwice<R(!new)>(hosts: seq<Host<R>>)
    requires forall k :: Bag(hosts, IdBag)[k] <= 1
    ensures Canonical(Canonical(hosts)) == Canonical(hosts)
  {
    hide Canonical;
    CanonicalIsSame(hosts);
    SameCanonical(hosts, Canonical(hosts));
  }

  lemma CanonicalAuthoritiesTwice(authorities: seq<Authority>)
    requires Once(Bag(authorities, AuthorityBag))
    ensures CanonicalAuthorities(CanonicalAuthorities(authorities)) == CanonicalAuthorities(authorities)
  {
    AuthoritiesTell(authorities);
    SortIs(authorities, AuthorityId);
    SortAgrees(authorities, Sort(authorities, AuthorityId), AuthorityId);
  }

  /** A validated configuration is its own canonical form. */
  lemma ValidatedIsCanonical(rules: Rules, r: Request)
    requires Validate(rules, r).Some?
    ensures
      var v := Validate(rules, r).value;
      && Canonical(v.hosts) == v.hosts && Canonical(v.redirects) == v.redirects
      && CanonicalAuthorities(v.authorities) == v.authorities
  {
    hide Canonical, CanonicalAuthorities, Acceptable, Revision, Once;
    AcceptableIds(rules, r);
    CanonicalTwice(r.hosts);
    CanonicalTwice(r.redirects);
    RenewedBag(rules, r.authorities);
    SoundOnce(rules, r.authorities);
    CanonicalAuthoritiesTwice(AllRenewed(rules, r.authorities));
  }

  lemma SoundOnce(rules: Rules, authorities: seq<Authority>)
    requires AuthoritiesSound(rules, authorities)
    ensures Once(Bag(authorities, AuthorityBag))
  {
  }

  /** One revision, one configuration: whatever two requests with the same revision are accepted,
      the same configuration comes of them. */
  lemma OneConfiguration(rules: Rules, a: Request, b: Request)
    requires Collisionless(rules) && a.revision == b.revision
    requires Validate(rules, a).Some? && Validate(rules, b).Some?
    ensures Validate(rules, a) == Validate(rules, b)
  {
    hide Canonical, CanonicalAuthorities, Acceptable, Version;
    ValidatedIsCanonical(rules, a);
    ValidatedIsCanonical(rules, b);
  }

  // ---------- Validation is a fixed point ----------

  /** Certifying a certified bundle gives it back: its text is canonical already. */
  ghost predicate CertifiesTwice(rules: Rules) {
    forall pem :: rules.certify(pem).Some? ==>
      var c := rules.certify(pem).value;
      rules.certify(c.pem) == Some(c)
  }

  lemma RenewedIsSame(rules: Rules, authorities: seq<Authority>)
    requires CertifiesTwice(rules) && AuthoritiesSound(rules, authorities)
    ensures SameAuthorities(rules, authorities, CanonicalAuthorities(AllRenewed(rules, authorities)))
  {
    var renewed := AllRenewed(rules, authorities);
    var sorted := CanonicalAuthorities(renewed);
    SortIs(renewed, AuthorityId);
    forall i | 0 <= i < |sorted| ensures Certifies(rules, sorted[i]) && Renewed(rules, sorted[i]) == sorted[i] {
      assert sorted[i] in multiset(renewed);
      var k :| 0 <= k < |authorities| && renewed[k] == sorted[i];
      assert Certifies(rules, authorities[k]);
    }
    assert AllRenewed(rules, sorted) == sorted;
    RenewedBag(rules, authorities);
    BagAgrees(renewed, sorted, AuthorityBag);
  }

  lemma PersistedIsAlike(rules: Rules, r: Request)
    requires CertifiesTwice(rules) && Validate(rules, r).Some?
    ensures Alike(rules, r, Persisted(Validate(rules, r).value))
  {
    hide AuthoritiesSound, Canonical, CanonicalAuthorities, Same, Version, HostsSound, RedirectsSound, Revision;
    CanonicalIsSame(r.hosts);
    CanonicalIsSame(r.redirects);
    SameVersion(r.hosts, Canonical(r.hosts));
    RenewedIsSame(rules, r.authorities);
  }

  /** A validated configuration, persisted and restored, passes every check and comes back as it
      was, revision included. */
  lemma RestoreGivesBack(rules: Rules, r: Request)
    requires CertifiesTwice(rules) && Validate(rules, r).Some?
    ensures Validate(rules, Persisted(Validate(rules, r).value)) == Validate(rules, r)
  {
    hide Alike, Validate;
    PersistedIsAlike(rules, r);
    AlikeValidates(rules, r, Persisted(Validate(rules, r).value));
  }
}
