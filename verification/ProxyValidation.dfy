/** The validation as it is carried out: passes over the request that fill sets of the ids,
    domains and policies seen so far. */
module ProxyValidation {
  import opened Durability
  import opened KeyOrder
  import opened ProxyConfiguration

  /** A set of keys holds exactly what a bag holds. */
  ghost predicate Keys(keys: set<Key>, bag: multiset<Key>) {
    forall k :: k in keys <==> k in bag
  }

  lemma {:induction false} BagTake<T>(s: seq<T>, i: nat, f: T -> multiset<Key>)
    requires i < |s|
    ensures Bag(s[..i + 1], f) == Bag(s[..i], f) + f(s[i])
  {
    assert s[..i + 1] == s[..i] + [s[i]];
    BagSplit(s[..i], [s[i]], f);
    assert [s[i]][1..] == [];
  }

  lemma BagPrefix<T>(s: seq<T>, i: nat, f: T -> multiset<Key>)
    requires i <= |s|
    ensures Bag(s[..i], f) <= Bag(s, f) && |Bag(s[..i], f)| <= |Bag(s, f)|
  {
    assert s == s[..i] + s[i..];
    BagSplit(s[..i], s[i..], f);
  }

  /** `validate_domains`: canonical, unseen, and not too many in all. */
  method ValidateDomains(rules: Rules, own: seq<Key>, total: nat, domains: set<Key>, ghost seen: multiset<Key>)
    returns (ok: bool, more: set<Key>)
    requires Once(seen) && Keys(domains, seen)
    ensures ok <==>
      && total + |own| <= MAX_TOTAL_DOMAINS && (forall i :: 0 <= i < |own| ==> rules.domain(own[i]))
      && Once(seen + multiset(own))
    ensures ok ==> Keys(more, seen + multiset(own))
  {
    hide Once, Keys;
    more := domains;
    if total + |own| > MAX_TOTAL_DOMAINS { return false, more; }
    var i := 0;
    assert seen + multiset(own[..0]) == seen;
    while i < |own|
      invariant i <= |own| && Once(seen + multiset(own[..i])) && Keys(more, seen + multiset(own[..i]))
      invariant forall k :: 0 <= k < i ==> rules.domain(own[k])
    {
      ghost var bag := seen + multiset(own[..i]);
      OnceMore(more, bag, own[i]);
      TakeMore(seen, own, i);
      if !rules.domain(own[i]) { return false, more; }
      if own[i] in more {
        if Once(seen + multiset(own)) { OnceLess(bag + multiset{own[i]}, seen + multiset(own)); }
        return false, more;
      }
      more := more + {own[i]};
      i := i + 1;
    }
    assert own[..i] == own;
    ok := true;
  }

  lemma TakeMore(seen: multiset<Key>, own: seq<Key>, i: nat)
    requires i < |own|
    ensures seen + multiset(own[..i + 1]) == seen + multiset(own[..i]) + multiset{own[i]}
    ensures seen + multiset(own[..i]) + multiset{own[i]} <= seen + multiset(own)
  {
    assert own[..i + 1] == own[..i] + [own[i]];
    assert own == own[..i + 1] + own[i + 1..];
  }

  lemma OnceLess(a: multiset<Key>, b: multiset<Key>)
    requires a <= b && Once(b)
    ensures Once(a)
  {
  }

  // ---------- Proxy hosts ----------

  /** What the first pass has established of a prefix. */
  ghost predicate Passed(rules: Rules, hosts: seq<Host<Forward>>) {
    && (forall h :: h in hosts ==> Shaped(rules, h) && Forwards(rules, h.body))
    && (forall g, h :: g in hosts && h in hosts ==> Agree(g.body.policy, h.body.policy))
    && Once(Bag(hosts, IdBag)) && Once(Bag(hosts, DomainBag)) && |Bag(hosts, DomainBag)| <= MAX_TOTAL_DOMAINS
  }

  /** The policies seen so far, by id. */
  ghost predicate Known(policies: map<Key, Policy>, hosts: seq<Host<Forward>>) {
    && (forall h :: h in hosts && h.body.policy.Some? ==>
          h.body.policy.value.id in policies && policies[h.body.policy.value.id] == h.body.policy.value)
    && (forall id :: id in policies ==>
          policies[id].id == id && exists h :: h in hosts && h.body.policy == Some(policies[id]))
  }

  lemma PassedPrefix(rules: Rules, hosts: seq<Host<Forward>>, n: nat)
    requires n <= |hosts| && Passed(rules, hosts)
    ensures Passed(rules, hosts[..n])
  {
    hide Bag, Once, Shaped, Forwards, Agree;
    BagPrefix(hosts, n, IdBag);
    BagPrefix(hosts, n, DomainBag);
    OnceLess(Bag(hosts[..n], IdBag), Bag(hosts, IdBag));
    OnceLess(Bag(hosts[..n], DomainBag), Bag(hosts, DomainBag));
  }

  /** One more host passes exactly when it does on its own and beside those before it. */
  lemma PassedMore(rules: Rules, hosts: seq<Host<Forward>>, n: nat, policies: map<Key, Policy>)
    requires n < |hosts| && Passed(rules, hosts[..n]) && Known(policies, hosts[..n])
    ensures
      var h := hosts[n];
      Passed(rules, hosts[..n + 1]) <==>
        && Shaped(rules, h) && Forwards(rules, h.body)
        && (h.body.policy.Some? && h.body.policy.value.id in policies ==>
              policies[h.body.policy.value.id] == h.body.policy.value)
        && Once(Bag(hosts[..n], IdBag) + multiset{h.id}) && Once(Bag(hosts[..n], DomainBag) + multiset(h.domains))
        && |Bag(hosts[..n], DomainBag)| + |h.domains| <= MAX_TOTAL_DOMAINS
  {
    hide Shaped, Forwards, Once, Bag, Agree;
    var h, before := hosts[n], hosts[..n];
    BagTake(hosts, n, IdBag);
    BagTake(hosts, n, DomainBag);
    assert |Bag(before, DomainBag) + multiset(h.domains)| == |Bag(before, DomainBag)| + |h.domains|;
    assert hosts[..n + 1] == before + [h];
    assert forall g :: g in hosts[..n + 1] <==> g in before || g == h;
    AgreeMore(hosts, n, policies);
  }

  lemma AgreeMore(hosts: seq<Host<Forward>>, n: nat, policies: map<Key, Policy>)
    requires n < |hosts| && Known(policies, hosts[..n])
    ensures
      var p := hosts[n].body.policy;
      (forall g :: g in hosts[..n] ==> Agree(g.body.policy, p) && Agree(p, g.body.policy)) <==>
        (p.Some? && p.value.id in policies ==> policies[p.value.id] == p.value)
    ensures Agree(hosts[n].body.policy, hosts[n].body.policy)
  {
    var p, before := hosts[n].body.policy, hosts[..n];
    if p.Some? && p.value.id in policies {
      var g :| g in before && g.body.policy == Some(policies[p.value.id]);
      assert Agree(g.body.policy, p) ==> policies[p.value.id] == p.value;
    }
  }

  lemma KnownMore(policies: map<Key, Policy>, hosts: seq<Host<Forward>>, n: nat)
    requires n < |hosts| && Known(policies, hosts[..n])
    requires
      var p := hosts[n].body.policy;
      p.Some? && p.value.id in policies ==> policies[p.value.id] == p.value
    ensures
      var p := hosts[n].body.policy;
      Known(if p.Some? then policies[p.value.id := p.value] else policies, hosts[..n + 1])
  {
    var h, before := hosts[n], hosts[..n];
    assert hosts[..n + 1] == before + [h];
    assert forall g :: g in hosts[..n + 1] <==> g in before || g == h;
  }

  /** The pass over the proxy hosts. */
  method PassHosts(rules: Rules, hosts: seq<Host<Forward>>)
    returns (ok: bool, ids: set<Key>, domains: set<Key>, total: nat)
    ensures ok <==> Passed(rules, hosts)
    ensures ok ==>
        Keys(ids, Bag(hosts, IdBag)) && Keys(domains, Bag(hosts, DomainBag)) && total == |Bag(hosts, DomainBag)|
  {
    hide Shaped, Forwards, Once, Bag, Known, Passed, Keys;
    ids, domains, total := {}, {}, 0;
    var policies: map<Key, Policy> := map[];
    var n := 0;
    EmptyPasses(rules);
    assert hosts[..0] == [];
    while n < |hosts|
      invariant n <= |hosts| && Passed(rules, hosts[..n]) && Known(policies, hosts[..n])
      invariant Keys(ids, Bag(hosts[..n], IdBag)) && Keys(domains, Bag(hosts[..n], DomainBag))
      invariant total == |Bag(hosts[..n], DomainBag)|
    {
      var h := hosts[n];
      PassedMore(rules, hosts, n, policies);
      PassedOnce(rules, hosts[..n]);
      OnceMore(ids, Bag(hosts[..n], IdBag), h.id);
      if Passed(rules, hosts) { PassedPrefix(rules, hosts, n + 1); }
      ShapedIs(rules, h);
      if !rules.uuid(h.id) || h.id in ids || h.domains == [] || |h.domains| > MAX_DOMAINS_PER_HOST ||
         !Forwards(rules, h.body)
      {
        return false, ids, domains, total;
      }
      var p := h.body.policy;
      if p.Some? && p.value.id in policies && policies[p.value.id] != p.value { return false, ids, domains, total; }
      var fine, more := ValidateDomains(rules, h.domains, total, domains, Bag(hosts[..n], DomainBag));
      if !fine { return false, ids, domains, total; }
      KnownMore(policies, hosts, n);
      BagTake(hosts, n, IdBag);
      BagTake(hosts, n, DomainBag);
      ids, domains, total := ids + {h.id}, more, total + |h.domains|;
      policies := if p.Some? then policies[p.value.id := p.value] else policies;
      n := n + 1;
    }
    assert hosts[..n] == hosts;
    ok := true;
  }

  lemma EmptyPasses(rules: Rules)
    ensures Passed(rules, []) && Known(map[], []) && Bag<Host<Forward>>([], IdBag) == multiset{}
    ensures Bag<Host<Forward>>([], DomainBag) == multiset{}
    ensures Keys({}, multiset{})
  {
  }

  lemma PassedOnce(rules: Rules, hosts: seq<Host<Forward>>)
    requires Passed(rules, hosts)
    ensures Once(Bag(hosts, IdBag)) && Once(Bag(hosts, DomainBag))
  {
  }

  lemma OnceMore(keys: set<Key>, bag: multiset<Key>, k: Key)
    requires Keys(keys, bag) && Once(bag)
    ensures Once(bag + multiset{k}) <==> k !in keys
    ensures Keys(keys + {k}, bag + multiset{k})
  {
    if k in keys { assert (bag + multiset{k})[k] >= 2; }
  }

  lemma ShapedIs<R>(rules: Rules, h: Host<R>)
    ensures Shaped(rules, h) <==>
      && rules.uuid(h.id) && h.domains != [] && |h.domains| <= MAX_DOMAINS_PER_HOST
      && forall i :: 0 <= i < |h.domains| ==> rules.domain(h.domains[i])
  {
  }

  // ---------- Redirects ----------

  ghost predicate PassedRedirects(rules: Rules, redirects: seq<Host<Redirect>>, ids: multiset<Key>,
                                  domains: multiset<Key>) {
    && RedirectsSound(rules, redirects)
    && Once(ids + Bag(redirects, IdBag)) && Once(domains + Bag(redirects, DomainBag))
    && |domains + Bag(redirects, DomainBag)| <= MAX_TOTAL_DOMAINS
  }

  lemma RedirectsPrefix(rules: Rules, redirects: seq<Host<Redirect>>, n: nat, ids: multiset<Key>,
                        domains: multiset<Key>)
    requires n <= |redirects| && PassedRedirects(rules, redirects, ids, domains)
    ensures PassedRedirects(rules, redirects[..n], ids, domains)
  {
    hide Bag, Shaped, Once;
    BagPrefix(redirects, n, IdBag);
    BagPrefix(redirects, n, DomainBag);
    OnceLess(ids + Bag(redirects[..n], IdBag), ids + Bag(redirects, IdBag));
    OnceLess(domains + Bag(redirects[..n], DomainBag), domains + Bag(redirects, DomainBag));
    assert |domains + Bag(redirects[..n], DomainBag)| == |domains| + |Bag(redirects[..n], DomainBag)|;
  }

  lemma RedirectsMore(rules: Rules, redirects: seq<Host<Redirect>>, n: nat, ids: multiset<Key>, domains: multiset<Key>)
    requires n < |redirects| && PassedRedirects(rules, redirects[..n], ids, domains)
    ensures
      var h := redirects[n];
      PassedRedirects(rules, redirects[..n + 1], ids, domains) <==>
        && Shaped(rules, h) && rules.redirect(h.body)
        && Once(ids + Bag(redirects[..n], IdBag) + multiset{h.id})
        && Once(domains + Bag(redirects[..n], DomainBag) + multiset(h.domains))
        && |domains + Bag(redirects[..n], DomainBag)| + |h.domains| <= MAX_TOTAL_DOMAINS
    ensures ids + Bag(redirects[..n + 1], IdBag) == ids + Bag(redirects[..n], IdBag) + multiset{redirects[n].id}
    ensures domains + Bag(redirects[..n + 1], DomainBag) ==
              domains + Bag(redirects[..n], DomainBag) + multiset(redirects[n].domains)
  {
    hide Bag, Shaped, Once;
    var h, before := redirects[n], redirects[..n];
    BagTake(redirects, n, IdBag);
    BagTake(redirects, n, DomainBag);
    var bag := domains + Bag(before, DomainBag);
    assert |bag + multiset(h.domains)| == |bag| + |h.domains|;
    assert ids + Bag(redirects[..n + 1], IdBag) == ids + Bag(before, IdBag) + multiset{h.id};
    assert domains + Bag(redirects[..n + 1], DomainBag) == bag + multiset(h.domains);
    assert redirects[..n + 1] == before + [h];
    assert forall g :: g in redirects[..n + 1] <==> g in before || g == h;
  }

  method PassRedirects(rules: Rules, redirects: seq<Host<Redirect>>, oldIds: set<Key>, oldDomains: set<Key>,
                       oldTotal: nat,
                       ghost idBag: multiset<Key>, ghost domainBag: multiset<Key>) returns (ok: bool)
    requires Keys(oldIds, idBag) && Keys(oldDomains, domainBag) && oldTotal == |domainBag|
    requires Once(idBag) && Once(domainBag) && |domainBag| <= MAX_TOTAL_DOMAINS
    ensures ok <==> PassedRedirects(rules, redirects, idBag, domainBag)
  {
    hide Shaped, Once, Bag, Keys, PassedRedirects;
    var ids, domains, total := oldIds, oldDomains, oldTotal;
    var n := 0;
    NoRedirects(rules, idBag, domainBag);
    assert redirects[..0] == [];
    while n < |redirects|
      invariant n <= |redirects| && PassedRedirects(rules, redirects[..n], idBag, domainBag)
      invariant Keys(ids, idBag + Bag(redirects[..n], IdBag))
      invariant Keys(domains, domainBag + Bag(redirects[..n], DomainBag))
      invariant total == |domainBag + Bag(redirects[..n], DomainBag)|
    {
      var h := redirects[n];
      RedirectsMore(rules, redirects, n, idBag, domainBag);
      RedirectsOnce(rules, redirects[..n], idBag, domainBag);
      OnceMore(ids, idBag + Bag(redirects[..n], IdBag), h.id);
      if PassedRedirects(rules, redirects, idBag, domainBag) {
        RedirectsPrefix(rules, redirects, n + 1, idBag, domainBag);
      }
      ShapedIs(rules, h);
      if !rules.uuid(h.id) || h.id in ids || h.domains == [] || |h.domains| > MAX_DOMAINS_PER_HOST ||
         !rules.redirect(h.body)
      {
        return false;
      }
      var fine, more := ValidateDomains(rules, h.domains, total, domains, domainBag + Bag(redirects[..n], DomainBag));
      if !fine { return false; }
      ids, domains, total := ids + {h.id}, more, total + |h.domains|;
      n := n + 1;
    }
    assert redirects[..n] == redirects;
    ok := true;
  }

  lemma NoRedirects(rules: Rules, ids: multiset<Key>, domains: multiset<Key>)
    requires Once(ids) && Once(domains) && |domains| <= MAX_TOTAL_DOMAINS
    ensures PassedRedirects(rules, [], ids, domains)
    ensures ids + Bag<Host<Redirect>>([], IdBag) == ids && domains + Bag<Host<Redirect>>([], DomainBag) == domains
  {
    assert ids + multiset{} == ids && domains + multiset{} == domains;
  }

  lemma RedirectsOnce(rules: Rules, redirects: seq<Host<Redirect>>, ids: multiset<Key>, domains: multiset<Key>)
    requires PassedRedirects(rules, redirects, ids, domains)
    ensures Once(ids + Bag(redirects, IdBag)) && Once(domains + Bag(redirects, DomainBag))
  {
  }

  // ---------- Authorities ----------

  /** `validate_and_canonicalize_trusted_cas`: each bundle is checked and rewritten in place. */
  method PassAuthorities(rules: Rules, authorities: seq<Authority>) returns (ok: bool, renewed: seq<Authority>)
    ensures ok <==> AuthoritiesSound(rules, authorities)
    ensures ok ==> renewed == AllRenewed(rules, authorities)
  {
    hide Once, Keys, Bag;
    var ids: set<Key> := {};
    renewed := authorities;
    var n := 0;
    NoAuthorities();
    assert authorities[..0] == [];
    while n < |authorities|
      invariant n <= |authorities| && |renewed| == |authorities|
      invariant forall i :: 0 <= i < n ==>
                Certifies(rules, authorities[i]) && renewed[i] == Renewed(rules, authorities[i])
      invariant forall i :: n <= i < |authorities| ==> renewed[i] == authorities[i]
      invariant Once(Bag(authorities[..n], AuthorityBag)) && Keys(ids, Bag(authorities[..n], AuthorityBag))
    {
      var a := renewed[n];
      OnceMore(ids, Bag(authorities[..n], AuthorityBag), a.id);
      BagTake(authorities, n, AuthorityBag);
      BagPrefix(authorities, n + 1, AuthorityBag);
      if Once(Bag(authorities, AuthorityBag)) {
        OnceLess(Bag(authorities[..n + 1], AuthorityBag), Bag(authorities, AuthorityBag));
      }
      assert authorities[n] in authorities;
      if !rules.uuid7(a.id) || a.id in ids { return false, renewed; }
      var certified := rules.certify(a.pem);
      if certified.None? || certified.value.fingerprint != a.fingerprint { return false, renewed; }
      ids := ids + {a.id};
      renewed := renewed[n := a.(pem := certified.value.pem, fingerprint := certified.value.fingerprint)];
      n := n + 1;
    }
    assert authorities[..n] == authorities;
    assert renewed == AllRenewed(rules, authorities);
    ok := true;
  }

  lemma NoAuthorities()
    ensures Bag<Authority>([], AuthorityBag) == multiset{} && Once(multiset{}) && Keys({}, multiset{})
  {
  }

  // ---------- The whole validation ----------

  /** The ids of authorities that hosts refer to. */
  method Referenced(hosts: seq<Host<Forward>>) returns (ids: set<Key>)
    ensures forall id :: id in ids <==> Refers(hosts, id)
  {
    ids := {};
    var n := 0;
    while n < |hosts|
      invariant n <= |hosts| && forall id :: id in ids <==> Refers(hosts[..n], id)
    {
      assert hosts[..n + 1] == hosts[..n] + [hosts[n]];
      assert forall h :: h in hosts[..n + 1] <==> h in hosts[..n] || h == hosts[n];
      var tls := hosts[n].body.tls;
      if tls.Some? && tls.value.ca.Some? { ids := ids + {tls.value.ca.value}; }
      n := n + 1;
    }
    assert hosts[..n] == hosts;
  }

  /** What the passes establish together. */
  lemma PassesAccept(rules: Rules, r: Request)
    requires r.version == Version(r.hosts) && rules.revision(r.revision) && rules.settings(r.settings)
    requires rules.site(r.site)
    requires |r.hosts| + |r.redirects| <= MAX_HOSTS
    ensures Acceptable(rules, r) <==>
      && Passed(rules, r.hosts)
      && PassedRedirects(rules, r.redirects, Bag(r.hosts, IdBag), Bag(r.hosts, DomainBag))
      && (forall h :: h in r.hosts ==> Secured(h.body))
      && AuthoritiesSound(rules, r.authorities)
      && (forall id :: Refers(r.hosts, id) <==> Trusts(r.authorities, id))
  {
    hide Bag, Shaped, Forwards, Agree, Refers, Trusts, Once, Version, AuthoritiesSound;
    if Acceptable(rules, r) {
      OnceLess(Bag(r.hosts, IdBag), Ids(r.hosts, r.redirects));
      OnceLess(Bag(r.hosts, DomainBag), Domains(r.hosts, r.redirects));
      assert |Domains(r.hosts, r.redirects)| == |Bag(r.hosts, DomainBag)| + |Bag(r.redirects, DomainBag)|;
    }
  }

  /** `validate_proxy_config`, pass by pass. */
  method ValidateProxyConfig(rules: Rules, request: Request) returns (r: Option<Validated>)
    ensures r == Validate(rules, request)
  {
    hide Passed, PassedRedirects, AuthoritiesSound, Refers, Trusts, Acceptable, Canonical, CanonicalAuthorities,
      Revision, Bag, Once, Keys, Version;
    if Acceptable(rules, request) { NeedsBasics(rules, request); }
    if request.version != Version(request.hosts) || !rules.revision(request.revision) { return None; }
    if !rules.settings(request.settings) || !rules.site(request.site) { return None; }
    if |request.hosts| + |request.redirects| > MAX_HOSTS { return None; }
    PassesAccept(rules, request);
    var passed, ids, domains, total := PassHosts(rules, request.hosts);
    if !passed { return None; }
    PassedBags(rules, request.hosts);
    passed := PassRedirects(rules, request.redirects, ids, domains, total, Bag(request.hosts, IdBag),
        Bag(request.hosts, DomainBag));
    if !passed { return None; }
    if exists h :: h in request.hosts && !Secured(h.body) { return None; }
    var sound, authorities := PassAuthorities(rules, request.authorities);
    if !sound { return None; }
    var trusted := set a | a in authorities :: a.id;
    var referenced := Referenced(request.hosts);
    RenewedTrusts(rules, request.authorities, trusted);
    if !(referenced <= trusted) || !(trusted <= referenced) { return None; }
    assert forall id :: id in referenced <==> id in trusted;
    var hosts, redirects := Canonical(request.hosts), Canonical(request.redirects);
    var canonical := CanonicalAuthorities(authorities);
    var actual := Revision(rules, hosts, redirects, request.settings, canonical, request.site);
    if request.revision != actual { return None; }
    r := Some(Validated(request.revision, hosts, redirects, request.settings, canonical, request.site));
  }

  lemma NeedsBasics(rules: Rules, r: Request)
    requires Acceptable(rules, r)
    ensures r.version == Version(r.hosts) && rules.revision(r.revision) && rules.settings(r.settings)
    ensures rules.site(r.site)
    ensures |r.hosts| + |r.redirects| <= MAX_HOSTS
  {
  }

  lemma PassedBags(rules: Rules, hosts: seq<Host<Forward>>)
    requires Passed(rules, hosts)
    ensures Once(Bag(hosts, IdBag)) && Once(Bag(hosts, DomainBag)) && |Bag(hosts, DomainBag)| <= MAX_TOTAL_DOMAINS
  {
  }

  lemma RenewedTrusts(rules: Rules, authorities: seq<Authority>, ids: set<Key>)
    requires ids == set a | a in AllRenewed(rules, authorities) :: a.id
    ensures forall id :: id in ids <==> Trusts(authorities, id)
  {
    var renewed := AllRenewed(rules, authorities);
    forall id | id in ids ensures Trusts(authorities, id) {
      var i :| 0 <= i < |renewed| && renewed[i].id == id;
      assert authorities[i] in authorities;
    }
    forall id | Trusts(authorities, id) ensures id in ids {
      var a :| a in authorities && a.id == id;
      var i :| 0 <= i < |authorities| && authorities[i] == a;
      assert renewed[i] in renewed;
    }
  }
}
