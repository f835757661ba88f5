/** The proposals of the built-in plugins spelled out, and the rows a run makes of them. */
module PluginRows {
  import opened Prelude
  import opened Text
  import opened Values
  import opened GraphDb
  import opened Batches
  import opened CallRows
  import opened BatchRows
  import opened Wayback
  import opened Plugins
  import opened PluginAttrs

  // ---------- Proposals ----------

  /** What find number `n` of a result proposes: an entity, and its relationship with the input. */
  predicate Proposes(fs: seq<Find>, n: nat, entity: EntityProposal, rel: RelProposal) {
    n < |fs| && EntitiesOf(fs)[n] == entity && RelsOf(fs)[n] == rel
  }

  lemma RefIs(prefix: string, dashed: string, n: nat)
    requires prefix + "-" == dashed
    ensures RefOf(prefix, n) == dashed + Decimal(n)
  {
  }

  lemma FindAt(fs: seq<Find>, n: nat)
    requires n < |fs|
    ensures Proposes(fs, n, EntityOf(fs[n]), RelOf(fs[n]))
  {
  }

  lemma CappedAt<P, Q>(xs: seq<P>, find: (nat, P) -> Find, ys: seq<Q>, find': (nat, Q) -> Find, n: nat)
    ensures var fs := CappedFinds(xs, find, ys, find');
            && |fs| == Min(|xs| + |ys|, 50)
            && (n < |fs| && n < |xs| ==> fs[n] == find(n, xs[n]))
            && (|xs| <= n < |fs| ==> fs[n] == find'(n, ys[n - |xs|]))
  {
  }

  function Via(plugin: string): Entry {
    Entry("discovered_via", VStr(plugin))
  }

  /** From the found entity to the input. */
  function ToInput(ref: string, rtype: RelType, confidence: real, attrs: seq<Entry>): RelProposal {
    RelProposal(Endpoint(false, Some(ref)), Endpoint(true, None), rtype, confidence, VMap(attrs))
  }

  /** From the input to the found entity. */
  function FromInput(ref: string, rtype: RelType, confidence: real, attrs: seq<Entry>): RelProposal {
    RelProposal(Endpoint(true, None), Endpoint(false, Some(ref)), rtype, confidence, VMap(attrs))
  }

  /** A VirusTotal domain result: addresses the input resolves to, then subdomains, 50 in all, numbered
      through. */
  lemma VtDomainProposes(ips: seq<(string, string)>, subs: seq<string>, n: nat)
    ensures var fs := CappedFinds(ips, VtAddress, subs, VtSubdomain);
            && |fs| == Min(|ips| + |subs|, 50)
            && (n < |fs| && n < |ips| ==>
                  var ref := "ip-" + Decimal(n);
                  Proposes(fs, n,
                           EntityProposal(ref, IP_ADDRESS, ips[n].0,
                                          VMap([Via("virustotal"), Entry("rdtype", VStr(ips[n].1))]), 0.85),
                           FromInput(ref, RESOLVES_TO, 0.85, [])))
            && (|ips| <= n < |fs| ==>
                  var ref := "sub-" + Decimal(n);
                  Proposes(fs, n, EntityProposal(ref, DOMAIN, subs[n - |ips|], VMap([Via("virustotal")]), 0.8),
                           ToInput(ref, SUBDOMAIN_OF, 0.8, [])))
  {
    CappedAt(ips, VtAddress, subs, VtSubdomain, n);
    RefIs("ip", "ip-", n);
    RefIs("sub", "sub-", n);
    hide RefOf;
    hide CappedFinds;
    hide Decimal;
    hide EntitiesOf;
    hide RelsOf;
    var fs := CappedFinds(ips, VtAddress, subs, VtSubdomain);
    if n < |fs| {
      FindAt(fs, n);
      hide Proposes;
    }
  }

  /** A VirusTotal IP result: at most 50 domains that resolve to the input. */
  lemma VtIpProposes(names: seq<string>, n: nat)
    ensures var fs := NumberedFrom(0, Take(names, MAX_ENTITIES), VtDomain);
            && |fs| == Min(|names|, 50)
            && (n < |fs| ==>
                  var ref := "domain-" + Decimal(n);
                  Proposes(fs, n, EntityProposal(ref, DOMAIN, names[n], VMap([Via("virustotal")]), 0.7),
                           ToInput(ref, RESOLVES_TO, 0.7, [])))
  {
    RefIs("domain", "domain-", n);
    hide RefOf;
  }

  /** A Shodan result: host names, then other domains, 50 in all, each resolving to the input. */
  lemma ShodanProposes(hosts: seq<string>, domains: seq<string>, n: nat)
    ensures var fs := CappedFinds(hosts, ShodanHost(0.8), domains, ShodanHost(0.7));
            && |fs| == Min(|hosts| + |domains|, 50)
            && (n < |fs| ==>
                  var ref := "host-" + Decimal(n);
                  var name, confidence := if n < |hosts| then hosts[n] else domains[n - |hosts|],
                                          if n < |hosts| then 0.8 else 0.7;
                  Proposes(fs, n, EntityProposal(ref, DOMAIN, name, VMap([Via("shodan")]), confidence),
                           ToInput(ref, RESOLVES_TO, confidence, [])))
  {
    CappedAt(hosts, ShodanHost(0.8), domains, ShodanHost(0.7), n);
    RefIs("host", "host-", n);
    hide RefOf;
    hide CappedFinds;
    hide Decimal;
    hide EntitiesOf;
    hide RelsOf;
    var fs := CappedFinds(hosts, ShodanHost(0.8), domains, ShodanHost(0.7));
    if n < |fs| {
      FindAt(fs, n);
      hide Proposes;
    }
  }

  /** A crt.sh result: every subdomain, below the input. */
  lemma CrtShProposes(names: seq<string>, ev: EvidenceProposal, n: nat)
    requires n < |names|
    ensures var q, ref := CrtShResult(names, ev), "sub-" + Decimal(n);
            && |q.entities| == |q.relationships| == |names| && q.evidence == [ev]
            && q.entities[n] == EntityProposal(ref, DOMAIN, names[n], VMap([Via("crt.sh")]), 0.8)
            && q.relationships[n] == ToInput(ref, SUBDOMAIN_OF, 0.9, [])
  {
    RefIs("sub", "sub-", n);
    hide RefOf;
  }

  lemma DnsAt(a: seq<string>, aaaa: seq<string>, ns: seq<string>, mx: seq<(int, string)>, n: nat)
    ensures var fs := DnsFinds(a, aaaa, ns, mx);
            && |fs| == |a| + |aaaa| + |ns| + |mx|
            && (n < |a| ==> fs[n] == AFind(n, a[n]))
            && (n < |aaaa| ==> fs[|a| + n] == AaaaFind(n, aaaa[n]))
            && (n < |ns| ==> fs[|a| + |aaaa| + n] == NameserverFind(n, ns[n]))
            && (n < |mx| ==> fs[|a| + |aaaa| + |ns| + n] == MxFind(n, mx[n]))
  {
    hide AFind;
    hide AaaaFind;
    hide NameserverFind;
    hide MxFind;
  }

  /** A dns_whois result: the four families, each numbered from zero. */
  lemma DnsProposes(a: seq<string>, aaaa: seq<string>, ns: seq<string>, mx: seq<(int, string)>, n: nat)
    ensures var fs := DnsFinds(a, aaaa, ns, mx);
            && |fs| == |a| + |aaaa| + |ns| + |mx|
            && (n < |a| ==> AddressProposed(fs, n, "ip-a-" + Decimal(n), a[n], "A"))
            && (n < |aaaa| ==> AddressProposed(fs, |a| + n, "ip-aaaa-" + Decimal(n), aaaa[n], "AAAA"))
            && (n < |ns| ==> NameserverProposed(fs, |a| + |aaaa| + n, "ns-" + Decimal(n), ns[n]))
            && (n < |mx| ==> MxProposed(fs, |a| + |aaaa| + |ns| + n, "mx-" + Decimal(n), mx[n].1, mx[n].0))
  {
    hide DnsFinds;
    hide AddressProposed;
    hide NameserverProposed;
    hide MxProposed;
    DnsAt(a, aaaa, ns, mx, n);
    var fs := DnsFinds(a, aaaa, ns, mx);
    if n < |a| {
      AddressSays(fs, n, n, a[n]);
    }
    if n < |aaaa| {
      AddressSays(fs, |a| + n, n, aaaa[n]);
    }
    if n < |ns| {
      NameserverSays(fs, |a| + |aaaa| + n, n, ns[n]);
    }
    if n < |mx| {
      MxSays(fs, |a| + |aaaa| + |ns| + n, n, mx[n]);
    }
  }

  lemma AddressSays(fs: seq<Find>, m: nat, n: nat, ip: string)
    requires m < |fs|
    ensures fs[m] == AFind(n, ip) ==> AddressProposed(fs, m, "ip-a-" + Decimal(n), ip, "A")
    ensures fs[m] == AaaaFind(n, ip) ==> AddressProposed(fs, m, "ip-aaaa-" + Decimal(n), ip, "AAAA")
  {
    RefIs("ip-a", "ip-a-", n);
    RefIs("ip-aaaa", "ip-aaaa-", n);
    hide RefOf;
    hide Decimal;
  }

  lemma NameserverSays(fs: seq<Find>, m: nat, n: nat, host: string)
    requires m < |fs| && fs[m] == NameserverFind(n, host)
    ensures NameserverProposed(fs, m, "ns-" + Decimal(n), host)
  {
    RefIs("ns", "ns-", n);
    hide RefOf;
    hide Decimal;
  }

  lemma MxSays(fs: seq<Find>, m: nat, n: nat, mx: (int, string))
    requires m < |fs| && fs[m] == MxFind(n, mx)
    ensures MxProposed(fs, m, "mx-" + Decimal(n), mx.1, mx.0)
  {
    RefIs("mx", "mx-", n);
    hide RefOf;
    hide Decimal;
  }

  predicate NameserverProposed(fs: seq<Find>, n: nat, ref: string, host: string) {
    var role := Entry("role", VStr("nameserver"));
    Proposes(fs, n, EntityProposal(ref, DOMAIN, host, VMap([Via("dns_whois"), role]), 0.9),
             ToInput(ref, ASSOCIATED_WITH, 0.9, [role]))
  }

  predicate MxProposed(fs: seq<Find>, n: nat, ref: string, host: string, preference: int) {
    var role, level := Entry("role", VStr("mx")), Entry("preference", VInt(preference));
    Proposes(fs, n, EntityProposal(ref, DOMAIN, host, VMap([Via("dns_whois"), role, level]), 0.9),
             ToInput(ref, ASSOCIATED_WITH, 0.9, [role, level]))
  }

  predicate AddressProposed(fs: seq<Find>, n: nat, ref: string, ip: string, rdtype: string) {
    Proposes(fs, n,
             EntityProposal(ref, IP_ADDRESS, ip, VMap([Via("dns_whois"), Entry("rdtype", VStr(rdtype))]), 0.95),
             ToInput(ref, RESOLVES_TO, 0.95, [Entry("rdtype", VStr(rdtype))]))
  }

  /** A Wayback result: of the first 500 snapshots those whose URL has at most 500 characters, in order, each
      numbered by its place among all. */
  lemma {:induction false} WaybackProposes(snapshots: seq<Snapshot>, n: nat) returns (places: seq<nat>)
    requires n <= |snapshots|
    ensures var fs := KeptFinds(snapshots, n);
            && |places| == |fs| && (forall i, j :: 0 <= i < j < |places| ==> places[i] < places[j])
            && (forall p: nat :: p in places <==> p < n && |snapshots[p].url| <= 500)
            && forall k :: 0 <= k < |places| ==>
                 places[k] < n && SnapshotProposed(fs, k, places[k], snapshots[places[k]])
  {
    places := [];
    if n > 0 {
      places := WaybackProposes(snapshots, n - 1);
      RefIs("snap", "snap-", n - 1);
      hide RefOf;
      hide Decimal;
      if |snapshots[n - 1].url| <= 500 {
        places := places + [n - 1];
      }
    }
  }

  predicate SnapshotProposed(fs: seq<Find>, k: nat, place: nat, s: Snapshot) {
    var ref := "snap-" + Decimal(place);
    Proposes(fs, k,
             EntityProposal(ref, URL, s.url,
                            VMap([Via("wayback_cdx"), Entry("first_seen", VStr(s.firstSeen)),
                                  Entry("last_seen", VStr(s.lastSeen)), Entry("status_code", VStr(s.status))]), 0.8),
             ToInput(ref, ASSOCIATED_WITH, 0.8, [Entry("role", VStr("archived"))]))
  }

  // ---------- Rows ----------

  /** The find is a live entity of the case, and a live relationship joins it with the input in the find's
      direction. */
  predicate FoundRow(c: Ctx, db: DB, f: Find, i: Id, j: Id) {
    && IsNamed(db, i, c.caseId, f.etype, f.name)
    && IsLink(db, j, c.caseId, if f.fromInput then c.input else i, if f.fromInput then i else c.input, f.rtype)
  }

  ghost predicate Found(c: Ctx, db: DB, f: Find) {
    exists i, j :: FoundRow(c, db, f, i, j)
  }

  /** After a successful run of a plugin every find is in the tables, joined with the input the right way
      round. */
  lemma FindsAreJoined(c: Ctx, db: DB, next: Id, fs: seq<Find>, ev: EvidenceProposal, n: nat)
    requires Consistent(db, next) && NoTwins(db, c.caseId) && NoTwinLinks(db, c.caseId)
    requires DistinctTags(fs) && n < |fs| && ApplyAll(c, Start(db, next), Proposals(ResultOf(fs, ev))).Ok?
    ensures Found(c, ApplyAll(c, Start(db, next), Proposals(ResultOf(fs, ev))).value.db, fs[n])
  {
    hide ApplyAll;
    hide Consistent;
    hide NoTwins;
    hide NoTwinLinks;
    hide IsNamed;
    hide Decimal;
    var q := ResultOf(fs, ev);
    BatchLeavesRows(c, db, next, q);
    FindsAreWellFormed(fs, [ev]);
    assert LastOfRef(q.entities, n);
    var b := ApplyAll(c, Start(db, next), Proposals(q)).value;
    assert HasLink(c, b, q.relationships[n]);
    var j :| Joins(c, b, j, q.relationships[n]);
    assert FoundRow(c, b.db, fs[n], b.refs[q.entities[n].ref], j);
  }
}
