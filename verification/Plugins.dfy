/** The proposal loops of the built-in plugins, and why their results never trip the runner. */
module Plugins {
  import opened Prelude
  import opened Text
  import opened Values
  import opened GraphDb
  import opened Batches
  import opened Firsts
  import opened BatchTheorems
  import opened OneShot
  import opened Wayback

  // ---------- Refs ----------

  /** `f"{prefix}-{index}"` */
  function RefOf(prefix: string, index: nat): string {
    prefix + "-" + Decimal(index)
  }

  /** The digits behind the last hyphen are the index, so prefix and index can be read off. */
  lemma RefInjective(p: string, i: nat, q: string, j: nat)
    requires RefOf(p, i) == RefOf(q, j)
    ensures p == q && i == j
  {
    LastHyphen(p, i, q, j);
    LastHyphen(q, j, p, i);
    var s := RefOf(p, i);
    assert s[..|p|] == p && s[..|q|] == q;
    assert s[|p| + 1..] == Decimal(i) && s[|q| + 1..] == Decimal(j);
    DecimalInjective(i, j);
  }

  lemma LastHyphen(p: string, i: nat, q: string, j: nat)
    requires RefOf(p, i) == RefOf(q, j)
    ensures |p| <= |q|
  {
    var s := RefOf(q, j);
    assert forall k :: |q| < k < |s| ==> s[k] == Decimal(j)[k - |q| - 1];
    assert s[|p|] == '-' && !IsDigit(s[|p|]);
  }

  // ---------- Found entities ----------

  /** One discovered entity with its relationship to the input. */
  datatype Find = Find(prefix: string, index: nat, etype: EntityType, name: string, attrs: Value, confidence: real,
                       rtype: RelType, relAttrs: Value, relConfidence: real, fromInput: bool)

  const INPUT_END := Endpoint(true, None)

  function EntityOf(f: Find): EntityProposal {
    EntityProposal(RefOf(f.prefix, f.index), f.etype, f.name, f.attrs, f.confidence)
  }

  function RelOf(f: Find): RelProposal {
    var found := Endpoint(false, Some(RefOf(f.prefix, f.index)));
    RelProposal(if f.fromInput then INPUT_END else found, if f.fromInput then found else INPUT_END, f.rtype,
                f.relConfidence, f.relAttrs)
  }

  function EntitiesOf(fs: seq<Find>): seq<EntityProposal> {
    seq(|fs|, n requires 0 <= n < |fs| => EntityOf(fs[n]))
  }

  function RelsOf(fs: seq<Find>): seq<RelProposal> {
    seq(|fs|, n requires 0 <= n < |fs| => RelOf(fs[n]))
  }

  lemma FindsMore(fs: seq<Find>, gs: seq<Find>)
    ensures EntitiesOf(fs + gs) == EntitiesOf(fs) + EntitiesOf(gs)
    ensures RelsOf(fs + gs) == RelsOf(fs) + RelsOf(gs)
  {
  }

  lemma NoFinds()
    ensures forall xs: seq<EntityProposal> :: xs + EntitiesOf([]) == xs
    ensures EntitiesOf([]) == [] && RelsOf([]) == []
  {
  }

  predicate DistinctTags(fs: seq<Find>) {
    forall m, n :: 0 <= m < n < |fs| ==> fs[m].prefix != fs[n].prefix || fs[m].index != fs[n].index
  }

  /** Refs are distinct, and each relationship joins the input and its own entity. */
  predicate WellFormed(q: QueryResult) {
    && (forall m, n :: 0 <= m < n < |q.entities| ==> q.entities[m].ref != q.entities[n].ref)
    && RefsResolve(q)
  }

  lemma FindsAreWellFormed(fs: seq<Find>, evidence: seq<EvidenceProposal>)
    requires DistinctTags(fs)
    ensures WellFormed(QueryResult(EntitiesOf(fs), RelsOf(fs), evidence))
  {
    var q := QueryResult(EntitiesOf(fs), RelsOf(fs), evidence);
    forall m, n | 0 <= m < n < |fs| ensures q.entities[m].ref != q.entities[n].ref {
      if q.entities[m].ref == q.entities[n].ref {
        RefInjective(fs[m].prefix, fs[m].index, fs[n].prefix, fs[n].index);
      }
    }
    forall n | 0 <= n < |fs|
      ensures EndpointNamed(q, q.relationships[n].src) && EndpointNamed(q, q.relationships[n].dst)
    {
      assert q.entities[n].ref in RefNames(q.entities);
    }
  }

  /** With distinct refs, a ref resolves to the row of its own proposal's key. */
  lemma {:induction false} RefMeansItsProposal(db: DB, c: CaseId, refs: map<string, Id>, eps: seq<EntityProposal>,
                                               n: nat)
    requires n < |eps| && forall i, j :: 0 <= i < j < |eps| ==> eps[i].ref != eps[j].ref
    ensures eps[n].ref in RefsOf(db, c, refs, eps)
    ensures RefsOf(db, c, refs, eps)[eps[n].ref] == TheEntity(db, c, ProposalKey(eps[n]))
    decreases |eps|
  {
    var refs' := refs[eps[0].ref := TheEntity(db, c, ProposalKey(eps[0]))];
    if n == 0 {
      OtherRefsStay(db, c, refs', eps[1..], eps[0].ref);
    } else {
      assert eps[1..][n - 1] == eps[n];
      RefMeansItsProposal(db, c, refs', eps[1..], n - 1);
    }
  }

  lemma {:induction false} OtherRefsStay(db: DB, c: CaseId, refs: map<string, Id>, eps: seq<EntityProposal>, r: string)
    requires r in refs && forall i :: 0 <= i < |eps| ==> eps[i].ref != r
    ensures r in RefsOf(db, c, refs, eps) && RefsOf(db, c, refs, eps)[r] == refs[r]
    decreases |eps|
  {
    if eps != [] {
      OtherRefsStay(db, c, refs[eps[0].ref := TheEntity(db, c, ProposalKey(eps[0]))], eps[1..], r);
    }
  }

  // ---------- Wayback ----------

  const MAX_SNAPSHOTS := 500
  const MAX_URL_LEN := 500

  function SnapshotFind(i: nat, s: Snapshot): Find {
    Find("snap", i, URL, s.url,
         VMap([Entry("discovered_via", VStr("wayback_cdx")), Entry("first_seen", VStr(s.firstSeen)),
               Entry("last_seen", VStr(s.lastSeen)), Entry("status_code", VStr(s.status))]),
         0.8, ASSOCIATED_WITH, VMap([Entry("role", VStr("archived"))]), 0.8, false)
  }

  /** The first `n` snapshots whose URL is short enough, each under its own position. */
  function KeptFinds(snapshots: seq<Snapshot>, n: nat): seq<Find>
    requires n <= |snapshots|
  {
    if n == 0 then []
    else KeptFinds(snapshots, n - 1) +
         if |snapshots[n - 1].url| > MAX_URL_LEN then [] else [SnapshotFind(n - 1, snapshots[n - 1])]
  }

  function Min(a: nat, b: nat): nat {
    if a <= b then a else b
  }

  /** The cap and the skip loop of the Wayback `query`. */
  method WaybackProposals(snapshots: seq<Snapshot>)
    returns (entities: seq<EntityProposal>, relationships: seq<RelProposal>, skipped: nat, truncated: bool)
    ensures truncated <==> |snapshots| > 500
    ensures var fs := KeptFinds(snapshots, Min(|snapshots|, 500));
            entities == EntitiesOf(fs) && relationships == RelsOf(fs)
    ensures |entities| + skipped == Min(|snapshots|, 500)
  {
    truncated := |snapshots| > MAX_SNAPSHOTS;
    var kept := if truncated then snapshots[..MAX_SNAPSHOTS] else snapshots;
    entities, relationships, skipped := [], [], 0;
    for i := 0 to |kept|
      invariant entities == EntitiesOf(KeptFinds(snapshots, i))
      invariant relationships == RelsOf(KeptFinds(snapshots, i))
      invariant |entities| + skipped == i
    {
      if |kept[i].url| > MAX_URL_LEN {
        assert KeptFinds(snapshots, i) + [] == KeptFinds(snapshots, i);
        skipped := skipped + 1;
        continue;
      }
      var f := SnapshotFind(i, kept[i]);
      entities := entities + [EntityOf(f)];
      relationships := relationships + [RelOf(f)];
    }
  }

  lemma {:induction false} KeptFindsDistinct(snapshots: seq<Snapshot>, n: nat)
    requires n <= |snapshots|
    ensures var fs := KeptFinds(snapshots, n);
            && |fs| <= n && DistinctTags(fs)
            && forall k :: 0 <= k < |fs| ==> fs[k].prefix == "snap" && fs[k].index < n
  {
    if n > 0 {
      KeptFindsDistinct(snapshots, n - 1);
    }
  }

  /** A Wayback result is well formed and has at most 1001 proposals with its one evidence item. */
  lemma WaybackResult(snapshots: seq<Snapshot>, ev: EvidenceProposal)
    ensures var fs := KeptFinds(snapshots, Min(|snapshots|, MAX_SNAPSHOTS));
            var q := QueryResult(EntitiesOf(fs), RelsOf(fs), [ev]);
            WellFormed(q) && |q.entities| + |q.relationships| + |q.evidence| <= 1001
  {
    var n := Min(|snapshots|, MAX_SNAPSHOTS);
    KeptFindsDistinct(snapshots, n);
    FindsAreWellFormed(KeptFinds(snapshots, n), [ev]);
  }

  // ---------- dns_whois ----------

  function AddressFind(prefix: string, rdtype: string, i: nat, ip: string): Find {
    Find(prefix, i, IP_ADDRESS, ip,
         VMap([Entry("discovered_via", VStr("dns_whois")), Entry("rdtype", VStr(rdtype))]),
         0.95, RESOLVES_TO, VMap([Entry("rdtype", VStr(rdtype))]), 0.95, false)
  }

  function AFind(i: nat, ip: string): Find {
    AddressFind("ip-a", "A", i, ip)
  }

  function AaaaFind(i: nat, ip: string): Find {
    AddressFind("ip-aaaa", "AAAA", i, ip)
  }

  function NameserverFind(i: nat, host: string): Find {
    Find("ns", i, DOMAIN, host,
         VMap([Entry("discovered_via", VStr("dns_whois")), Entry("role", VStr("nameserver"))]),
         0.9, ASSOCIATED_WITH, VMap([Entry("role", VStr("nameserver"))]), 0.9, false)
  }

  function MxFind(i: nat, mx: (int, string)): Find {
    Find("mx", i, DOMAIN, mx.1,
         VMap([Entry("discovered_via", VStr("dns_whois")), Entry("role", VStr("mx")), Entry("preference", VInt(mx.0))]),
         0.9, ASSOCIATED_WITH, VMap([Entry("role", VStr("mx")), Entry("preference", VInt(mx.0))]), 0.9, false)
  }

  function Numbered<T>(xs: seq<T>, find: (nat, T) -> Find): seq<Find> {
    seq(|xs|, i requires 0 <= i < |xs| => find(i, xs[i]))
  }

  function DnsFinds(a: seq<string>, aaaa: seq<string>, ns: seq<string>, mx: seq<(int, string)>): seq<Find> {
    Numbered(a, AFind) + Numbered(aaaa, AaaaFind) + Numbered(ns, NameserverFind) + Numbered(mx, MxFind)
  }

  /** One uncapped loop: every item becomes an entity and a relationship. */
  method NumberedLoop<T>(xs: seq<T>, find: (nat, T) -> Find, entities: seq<EntityProposal>,
                         relationships: seq<RelProposal>)
    returns (entities': seq<EntityProposal>, relationships': seq<RelProposal>)
    ensures entities' == entities + EntitiesOf(Numbered(xs, find))
    ensures relationships' == relationships + RelsOf(Numbered(xs, find))
  {
    entities', relationships' := entities, relationships;
    for i := 0 to |xs|
      invariant entities' == entities + EntitiesOf(Numbered(xs, find)[..i])
      invariant relationships' == relationships + RelsOf(Numbered(xs, find)[..i])
    {
      var f := find(i, xs[i]);
      assert Numbered(xs, find)[..i + 1] == Numbered(xs, find)[..i] + [f];
      FindsMore(Numbered(xs, find)[..i], [f]);
      entities' := entities' + [EntityOf(f)];
      relationships' := relationships' + [RelOf(f)];
    }
    assert Numbered(xs, find)[..|xs|] == Numbered(xs, find);
  }

  /** The four loops of the DNS `query`. */
  method DnsProposals(a: seq<string>, aaaa: seq<string>, ns: seq<string>, mx: seq<(int, string)>)
    returns (entities: seq<EntityProposal>, relationships: seq<RelProposal>)
    ensures entities == EntitiesOf(DnsFinds(a, aaaa, ns, mx))
    ensures relationships == RelsOf(DnsFinds(a, aaaa, ns, mx))
  {
    NoFinds();
    ghost var fs := DnsFinds(a, aaaa, ns, mx);
    hide EntitiesOf;
    hide RelsOf;
    hide Numbered;
    entities, relationships := NumberedLoop(a, AFind, [], []);
    ghost var done := Numbered(a, AFind);
    entities, relationships := NumberedLoop(aaaa, AaaaFind, entities, relationships);
    FindsMore(done, Numbered(aaaa, AaaaFind));
    done := done + Numbered(aaaa, AaaaFind);
    entities, relationships := NumberedLoop(ns, NameserverFind, entities, relationships);
    FindsMore(done, Numbered(ns, NameserverFind));
    done := done + Numbered(ns, NameserverFind);
    entities, relationships := NumberedLoop(mx, MxFind, entities, relationships);
    FindsMore(done, Numbered(mx, MxFind));
  }

  /** The four ref families never collide, although one prefix extends another. */
  lemma DnsResult(a: seq<string>, aaaa: seq<string>, ns: seq<string>, mx: seq<(int, string)>, ev: EvidenceProposal)
    ensures var fs := DnsFinds(a, aaaa, ns, mx);
            WellFormed(QueryResult(EntitiesOf(fs), RelsOf(fs), [ev]))
  {
    var fs := DnsFinds(a, aaaa, ns, mx);
    var x, y, z := |a|, |a| + |aaaa|, |a| + |aaaa| + |ns|;
    forall n | 0 <= n < |fs|
      ensures fs[n].prefix == if n < x then "ip-a" else if n < y then "ip-aaaa" else if n < z then "ns" else "mx"
      ensures fs[n].index == if n < x then n else if n < y then n - x else if n < z then n - y else n - z
    {
      if n < x {
        assert fs[n] == Numbered(a, AFind)[n] == AFind(n, a[n]);
      } else if n < y {
        assert fs[n] == Numbered(aaaa, AaaaFind)[n - x] == AaaaFind(n - x, aaaa[n - x]);
      } else if n < z {
        assert fs[n] == Numbered(ns, NameserverFind)[n - y] == NameserverFind(n - y, ns[n - y]);
      } else {
        assert fs[n] == Numbered(mx, MxFind)[n - z] == MxFind(n - z, mx[n - z]);
      }
    }
    assert |"ip-a"| == 4 && |"ip-aaaa"| == 7 && "ns" != "mx";
    hide DnsFinds;
    FindsAreWellFormed(fs, [ev]);
  }

  // ---------- VirusTotal and Shodan: a shared counter and a cap ----------

  const MAX_ENTITIES := 50

  /** What a loop makes of one item of the response: a candidate, or nothing. */
  type Pick<!X, P> = X -> Option<P>

  /** The candidates a list yields, in order. */
  function Picked<X, P>(xs: seq<X>, pick: Pick<X, P>): seq<P> {
    if xs == [] then []
    else Picked(xs[..|xs| - 1], pick) +
         var p := pick(xs[|xs| - 1]);
         if p.Some? then [p.value] else []
  }

  function Take<P>(xs: seq<P>, n: nat): seq<P> {
    xs[..Min(|xs|, n)]
  }

  function NumberedFrom<P>(from: nat, xs: seq<P>, find: (nat, P) -> Find): seq<Find> {
    seq(|xs|, i requires 0 <= i < |xs| => find(from + i, xs[i]))
  }

  lemma {:induction false} PickedPrefix<X, P>(xs: seq<X>, i: nat, pick: Pick<X, P>)
    requires i <= |xs|
    ensures Picked(xs[..i], pick) <= Picked(xs, pick)
  {
    if i < |xs| {
      PickedPrefix(xs[..|xs| - 1], i, pick);
      assert xs[..|xs| - 1][..i] == xs[..i];
    } else {
      assert xs[..i] == xs;
    }
  }

  lemma PickedMore<X, P>(xs: seq<X>, i: nat, pick: Pick<X, P>)
    requires i < |xs|
    ensures Picked(xs[..i + 1], pick) == Picked(xs[..i], pick) + if pick(xs[i]).Some? then [pick(xs[i]).value] else []
    ensures pick(xs[i]).None? ==> Picked(xs[..i + 1], pick) == Picked(xs[..i], pick)
  {
    assert xs[..i + 1][..i] == xs[..i];
  }

  lemma TakePrefix<P>(xs: seq<P>, ys: seq<P>)
    requires ys <= xs
    ensures Take(xs, |ys|) == ys
  {
  }

  lemma TakeAll<P>(xs: seq<P>, n: nat)
    requires |xs| <= n
    ensures Take(xs, n) == xs
  {
  }

  /** The two lists have grown by the numbered finds of `taken`. */
  ghost predicate Added<P>(entities: seq<EntityProposal>, relationships: seq<RelProposal>, find: (nat, P) -> Find,
                           taken: seq<P>, entities': seq<EntityProposal>, relationships': seq<RelProposal>)
  {
    && entities' == entities + EntitiesOf(NumberedFrom(|entities|, taken, find))
    && relationships' == relationships + RelsOf(NumberedFrom(|entities|, taken, find))
  }

  lemma AddedNone<P>(entities: seq<EntityProposal>, relationships: seq<RelProposal>, find: (nat, P) -> Find)
    ensures Added(entities, relationships, find, [], entities, relationships)
  {
  }

  lemma AddedShape<P>(entities: seq<EntityProposal>, relationships: seq<RelProposal>, find: (nat, P) -> Find,
                      taken: seq<P>, entities': seq<EntityProposal>, relationships': seq<RelProposal>)
    requires Added(entities, relationships, find, taken, entities', relationships')
    ensures |entities'| == |entities| + |taken|
    ensures entities' == entities + EntitiesOf(NumberedFrom(|entities|, taken, find))
    ensures relationships' == relationships + RelsOf(NumberedFrom(|entities|, taken, find))
  {
  }

  lemma AddedMore<P>(entities: seq<EntityProposal>, relationships: seq<RelProposal>, find: (nat, P) -> Find,
                     taken: seq<P>, entities': seq<EntityProposal>, relationships': seq<RelProposal>, x: P)
    requires Added(entities, relationships, find, taken, entities', relationships')
    ensures var f := find(|entities'|, x);
            Added(entities, relationships, find, taken + [x], entities' + [EntityOf(f)], relationships' + [RelOf(f)])
  {
    var f := find(|entities'|, x);
    assert NumberedFrom(|entities|, taken + [x], find) == NumberedFrom(|entities|, taken, find) + [f];
    FindsMore(NumberedFrom(|entities|, taken, find), [f]);
  }

  /** The cap is reached once these items are taken in. */
  predicate CapAt<X, P>(count: nat, xs: seq<X>, pick: Pick<X, P>) {
    count + |Picked(xs, pick)| >= MAX_ENTITIES
  }

  /** An item is left over when the cap is reached, counting from `count`. */
  predicate CutShort<X, P>(count: nat, xs: seq<X>, pick: Pick<X, P>) {
    exists n :: 0 <= n < |xs| && CapAt(count, xs[..n], pick)
  }

  /** One capped loop with the shared counter: it adds the candidates in order, each numbered by the
      counter, until the cap is reached; it reports truncation when an item is left at the cap. */
  method CappedLoop<X, P>(xs: seq<X>, pick: Pick<X, P>, find: (nat, P) -> Find, entities: seq<EntityProposal>,
                          relationships: seq<RelProposal>, truncated: bool)
    returns (entities': seq<EntityProposal>, relationships': seq<RelProposal>, truncated': bool)
    requires |entities| == |relationships| <= MAX_ENTITIES
    ensures var fs := NumberedFrom(|entities|, Take(Picked(xs, pick), MAX_ENTITIES - |entities|), find);
            entities' == entities + EntitiesOf(fs) && relationships' == relationships + RelsOf(fs)
    ensures truncated' <==> truncated || CutShort(|entities|, xs, pick)
  {
    entities', relationships', truncated' := entities, relationships, truncated;
    ghost var taken: seq<P> := [];
    assert xs[..0] == [];
    AddedNone(entities, relationships, find);
    hide Picked;
    hide Added;
    hide Take;
    for i := 0 to |xs|
      invariant taken == Picked(xs[..i], pick) && |entities| + |taken| <= MAX_ENTITIES
      invariant Added(entities, relationships, find, taken, entities', relationships') && truncated' == truncated
      invariant forall n :: 0 <= n < i ==> !CapAt(|entities|, xs[..n], pick)
    {
      AddedShape(entities, relationships, find, taken, entities', relationships');
      if |entities'| >= MAX_ENTITIES {
        PickedPrefix(xs, i, pick);
        TakePrefix(Picked(xs, pick), taken);
        assert CapAt(|entities|, xs[..i], pick);
        truncated' := true;
        return;
      }
      PickedMore(xs, i, pick);
      var p := pick(xs[i]);
      if p.Some? {
        var f := find(|entities'|, p.value);
        AddedMore(entities, relationships, find, taken, entities', relationships', p.value);
        taken := taken + [p.value];
        entities' := entities' + [EntityOf(f)];
        relationships' := relationships' + [RelOf(f)];
      }
    }
    assert xs[..|xs|] == xs;
    AddedShape(entities, relationships, find, taken, entities', relationships');
    TakeAll(taken, MAX_ENTITIES - |entities|);
  }

  /** A DNS record of VirusTotal that names an address: the address and the record type. */
  function VtAddress(i: nat, a: (string, string)): Find {
    Find("ip", i, IP_ADDRESS, a.0,
         VMap([Entry("discovered_via", VStr("virustotal")), Entry("rdtype", VStr(a.1))]), 0.85, RESOLVES_TO, VMap([]),
         0.85, true)
  }

  function VtSubdomain(i: nat, name: string): Find {
    Find("sub", i, DOMAIN, name, VMap([Entry("discovered_via", VStr("virustotal"))]), 0.8, SUBDOMAIN_OF, VMap([]), 0.8,
         false)
  }

  function VtDomain(i: nat, name: string): Find {
    Find("domain", i, DOMAIN, name, VMap([Entry("discovered_via", VStr("virustotal"))]), 0.7, RESOLVES_TO, VMap([]),
         0.7, false)
  }

  /** Two lists under one counter and one cap. */
  function CappedFinds<P, Q>(xs: seq<P>, find: (nat, P) -> Find, ys: seq<Q>, find': (nat, Q) -> Find): seq<Find> {
    var first := Take(xs, MAX_ENTITIES);
    NumberedFrom(0, first, find) + NumberedFrom(|first|, Take(ys, MAX_ENTITIES - |first|), find')
  }

  /** The two passes of VirusTotal's `_query_domain` over the DNS records. */
  method VtDomainProposals<X>(records: seq<X>, pickIp: Pick<X, (string, string)>, pickSub: Pick<X, string>)
    returns (entities: seq<EntityProposal>, relationships: seq<RelProposal>, truncated: bool)
    ensures var fs := CappedFinds(Picked(records, pickIp), VtAddress, Picked(records, pickSub), VtSubdomain);
            entities == EntitiesOf(fs) && relationships == RelsOf(fs)
    ensures var ips := Min(|Picked(records, pickIp)|, MAX_ENTITIES);
            truncated <==> CutShort(0, records, pickIp) || CutShort(ips, records, pickSub)
  {
    entities, relationships, truncated := CappedLoop(records, pickIp, VtAddress, [], [], false);
    ghost var first := NumberedFrom(0, Take(Picked(records, pickIp), MAX_ENTITIES), VtAddress);
    assert entities == EntitiesOf(first) && relationships == RelsOf(first);
    ghost var taken := |first|;
    assert |entities| == |relationships| == taken == Min(|Picked(records, pickIp)|, MAX_ENTITIES);
    ghost var second := NumberedFrom(taken, Take(Picked(records, pickSub), MAX_ENTITIES - taken), VtSubdomain);
    FindsMore(first, second);
    hide EntitiesOf;
    hide RelsOf;
    hide NumberedFrom;
    hide Picked;
    hide Take;
    hide CutShort;
    entities, relationships, truncated := CappedLoop(records, pickSub, VtSubdomain, entities, relationships, truncated);
  }

  /** VirusTotal's `_query_ip` over the certificate's alternative names. */
  method VtIpProposals<X>(names: seq<X>, pickName: Pick<X, string>)
    returns (entities: seq<EntityProposal>, relationships: seq<RelProposal>, truncated: bool)
    ensures var fs := NumberedFrom(0, Take(Picked(names, pickName), MAX_ENTITIES), VtDomain);
            entities == EntitiesOf(fs) && relationships == RelsOf(fs)
    ensures truncated <==> CutShort(0, names, pickName)
  {
    entities, relationships, truncated := CappedLoop(names, pickName, VtDomain, [], [], false);
    ghost var first := NumberedFrom(0, Take(Picked(names, pickName), MAX_ENTITIES), VtDomain);
    assert entities == EntitiesOf(first) && relationships == RelsOf(first);
  }

  /** The names outside `seen`, each at its first place. */
  function NewNames(seen: set<string>, xs: seq<string>): seq<string> {
    if xs == [] then []
    else
      var before := NewNames(seen, xs[..|xs| - 1]);
      var x := xs[|xs| - 1];
      if x in seen || x in before then before else before + [x]
  }

  lemma {:induction false} NewNamesPrefix(seen: set<string>, xs: seq<string>, ys: seq<string>)
    requires xs <= ys
    ensures NewNames(seen, xs) <= NewNames(seen, ys)
  {
    if |xs| < |ys| {
      assert xs <= ys[..|ys| - 1];
      NewNamesPrefix(seen, xs, ys[..|ys| - 1]);
    } else {
      assert xs == ys;
    }
  }

  /** Shodan's loop over one list: as above, and a name already seen is skipped. */
  method DistinctLoop<X>(xs: seq<X>, pick: Pick<X, string>, find: (nat, string) -> Find, entities: seq<EntityProposal>,
                         relationships: seq<RelProposal>, seen: set<string>, truncated: bool)
    returns (entities': seq<EntityProposal>, relationships': seq<RelProposal>, seen': set<string>, truncated': bool)
    requires |entities| == |relationships| <= MAX_ENTITIES
    ensures NamesDone(xs, pick, find, entities, relationships, seen, entities', relationships', seen')
    ensures truncated' <==> truncated || LeavesNames(|entities|, seen, xs, pick)
  {
    entities', relationships', seen', truncated' := entities, relationships, seen, truncated;
    ghost var taken: seq<string> := [];
    NamesNone(xs, pick, find, entities, relationships, seen);
    hide *;
    for i := 0 to |xs|
      invariant NamesAt(xs, i, pick, find, entities, relationships, seen, taken, entities', relationships', seen')
      invariant truncated' == truncated
    {
      if |entities'| >= MAX_ENTITIES {
        NamesFull(xs, i, pick, find, entities, relationships, seen, taken, entities', relationships', seen');
        truncated' := true;
        return;
      }
      var p := pick(xs[i]);
      if p.None? {
        NamesSkip(xs, i, pick, find, entities, relationships, seen, taken, entities', relationships', seen');
        continue;
      }
      if p.value in seen' {
        NamesSkip(xs, i, pick, find, entities, relationships, seen, taken, entities', relationships', seen');
        continue;
      }
      NamesTake(xs, i, pick, find, entities, relationships, seen, taken, entities', relationships', seen');
      seen' := seen' + {p.value};
      var f := find(|entities'|, p.value);
      taken := taken + [p.value];
      entities' := entities' + [EntityOf(f)];
      relationships' := relationships' + [RelOf(f)];
    }
    NamesEnd(xs, pick, find, entities, relationships, seen, taken, entities', relationships', seen');
  }

  /** Where the loop stands before item `i`, with `taken` the names it has added. */
  ghost predicate NamesAt<X>(xs: seq<X>, i: nat, pick: Pick<X, string>, find: (nat, string) -> Find,
                             entities: seq<EntityProposal>, relationships: seq<RelProposal>, seen: set<string>,
                             taken: seq<string>, entities': seq<EntityProposal>, relationships': seq<RelProposal>,
                             seen': set<string>)
  {
    && i <= |xs| && taken == NewNames(seen, Picked(xs[..i], pick)) && |entities| + |taken| <= MAX_ENTITIES
    && Added(entities, relationships, find, taken, entities', relationships') && seen' == seen + Elems(taken)
    && !LeavesNames(|entities|, seen, xs[..i], pick)
  }

  lemma NamesNone<X>(xs: seq<X>, pick: Pick<X, string>, find: (nat, string) -> Find, entities: seq<EntityProposal>,
                     relationships: seq<RelProposal>, seen: set<string>)
    requires |entities| <= MAX_ENTITIES
    ensures NamesAt(xs, 0, pick, find, entities, relationships, seen, [], entities, relationships, seen)
  {
    var none: seq<string> := [];
    assert xs[..0] == [] && Elems(none) == {};
    AddedNone(entities, relationships, find);
  }

  lemma NamesSkip<X>(xs: seq<X>, i: nat, pick: Pick<X, string>, find: (nat, string) -> Find,
                     entities: seq<EntityProposal>, relationships: seq<RelProposal>, seen: set<string>,
                     taken: seq<string>, entities': seq<EntityProposal>, relationships': seq<RelProposal>,
                     seen': set<string>)
    requires NamesAt(xs, i, pick, find, entities, relationships, seen, taken, entities', relationships', seen')
    requires i < |xs| && |entities'| < MAX_ENTITIES && (pick(xs[i]).None? || pick(xs[i]).value in seen')
    ensures NamesAt(xs, i + 1, pick, find, entities, relationships, seen, taken, entities', relationships', seen')
  {
    AddedShape(entities, relationships, find, taken, entities', relationships');
    PickedMore(xs, i, pick);
    LeavesMore(|entities|, seen, xs, i, pick);
    if pick(xs[i]).Some? {
      NewNamesMore(seen, Picked(xs[..i], pick), pick(xs[i]).value);
    }
    hide Picked;
    hide NewNames;
    hide Added;
    hide LeavesNames;
  }

  lemma NamesTake<X>(xs: seq<X>, i: nat, pick: Pick<X, string>, find: (nat, string) -> Find,
                     entities: seq<EntityProposal>, relationships: seq<RelProposal>, seen: set<string>,
                     taken: seq<string>, entities': seq<EntityProposal>, relationships': seq<RelProposal>,
                     seen': set<string>)
    requires NamesAt(xs, i, pick, find, entities, relationships, seen, taken, entities', relationships', seen')
    requires i < |xs| && |entities'| < MAX_ENTITIES && pick(xs[i]).Some? && pick(xs[i]).value !in seen'
    ensures var name := pick(xs[i]).value;
            var f := find(|entities'|, name);
            NamesAt(xs, i + 1, pick, find, entities, relationships, seen, taken + [name], entities' + [EntityOf(f)],
                    relationships' + [RelOf(f)], seen' + {name})
  {
    var name := pick(xs[i]).value;
    AddedShape(entities, relationships, find, taken, entities', relationships');
    AddedMore(entities, relationships, find, taken, entities', relationships', name);
    PickedMore(xs, i, pick);
    LeavesMore(|entities|, seen, xs, i, pick);
    NewNamesMore(seen, Picked(xs[..i], pick), name);
    ElemsMore(seen, taken, name);
    hide Picked;
    hide NewNames;
    hide Added;
    hide Elems;
    hide LeavesNames;
  }

  /** What the loop has made of the list once it is over. */
  ghost predicate NamesDone<X>(xs: seq<X>, pick: Pick<X, string>, find: (nat, string) -> Find,
                               entities: seq<EntityProposal>, relationships: seq<RelProposal>, seen: set<string>,
                               entities': seq<EntityProposal>, relationships': seq<RelProposal>, seen': set<string>)
    requires |entities| <= MAX_ENTITIES
  {
    var taken := Take(NewNames(seen, Picked(xs, pick)), MAX_ENTITIES - |entities|);
    var fs := NumberedFrom(|entities|, taken, find);
    && entities' == entities + EntitiesOf(fs) && relationships' == relationships + RelsOf(fs)
    && seen' == seen + Elems(taken)
  }

  lemma NamesFull<X>(xs: seq<X>, i: nat, pick: Pick<X, string>, find: (nat, string) -> Find,
                     entities: seq<EntityProposal>, relationships: seq<RelProposal>, seen: set<string>,
                     taken: seq<string>, entities': seq<EntityProposal>, relationships': seq<RelProposal>,
                     seen': set<string>)
    requires |entities| <= MAX_ENTITIES && i < |xs| && |entities'| >= MAX_ENTITIES
    requires NamesAt(xs, i, pick, find, entities, relationships, seen, taken, entities', relationships', seen')
    ensures NamesDone(xs, pick, find, entities, relationships, seen, entities', relationships', seen')
    ensures LeavesNames(|entities|, seen, xs, pick)
  {
    AddedShape(entities, relationships, find, taken, entities', relationships');
    PickedPrefix(xs, i, pick);
    NewNamesPrefix(seen, Picked(xs[..i], pick), Picked(xs, pick));
    TakePrefix(NewNames(seen, Picked(xs, pick)), taken);
    LeavesMore(|entities|, seen, xs, i, pick);
  }

  lemma NamesEnd<X>(xs: seq<X>, pick: Pick<X, string>, find: (nat, string) -> Find, entities: seq<EntityProposal>,
                    relationships: seq<RelProposal>, seen: set<string>, taken: seq<string>,
                    entities': seq<EntityProposal>, relationships': seq<RelProposal>, seen': set<string>)
    requires |entities| <= MAX_ENTITIES
    requires NamesAt(xs, |xs|, pick, find, entities, relationships, seen, taken, entities', relationships', seen')
    ensures NamesDone(xs, pick, find, entities, relationships, seen, entities', relationships', seen')
    ensures !LeavesNames(|entities|, seen, xs, pick)
  {
    assert xs[..|xs|] == xs;
    TakeAll(taken, MAX_ENTITIES - |entities|);
  }

  /** The cap is reached once these items are taken in. */
  predicate FullAt<X>(count: nat, seen: set<string>, xs: seq<X>, pick: Pick<X, string>) {
    count + |NewNames(seen, Picked(xs, pick))| >= MAX_ENTITIES
  }

  /** An item is left over when the cap is reached, counting from `count`. */
  predicate LeavesNames<X>(count: nat, seen: set<string>, xs: seq<X>, pick: Pick<X, string>) {
    exists n :: 0 <= n < |xs| && FullAt(count, seen, xs[..n], pick)
  }

  lemma LeavesMore<X>(count: nat, seen: set<string>, xs: seq<X>, i: nat, pick: Pick<X, string>)
    requires i < |xs|
    ensures LeavesNames(count, seen, xs[..i + 1], pick) <==>
            LeavesNames(count, seen, xs[..i], pick) || FullAt(count, seen, xs[..i], pick)
    ensures FullAt(count, seen, xs[..i], pick) ==> LeavesNames(count, seen, xs, pick)
  {
    hide FullAt;
    assert forall n :: 0 <= n <= i ==> xs[..i + 1][..n] == xs[..n];
    assert forall n :: 0 <= n < i ==> xs[..i][..n] == xs[..n];
    if LeavesNames(count, seen, xs[..i], pick) {
      var n :| 0 <= n < |xs[..i]| && FullAt(count, seen, xs[..i][..n], pick);
      assert FullAt(count, seen, xs[..i + 1][..n], pick);
    }
    if FullAt(count, seen, xs[..i], pick) {
      assert FullAt(count, seen, xs[..i + 1][..i], pick);
    }
    if LeavesNames(count, seen, xs[..i + 1], pick) {
      var n :| 0 <= n < |xs[..i + 1]| && FullAt(count, seen, xs[..i + 1][..n], pick);
      assert n < i ==> FullAt(count, seen, xs[..i][..n], pick);
    }
  }

  lemma ElemsPrefix(xs: seq<string>, ys: seq<string>)
    requires xs <= ys
    ensures Elems(xs) <= Elems(ys)
  {
  }

  lemma ElemsMore(seen: set<string>, xs: seq<string>, x: string)
    ensures Elems(xs + [x]) == Elems(xs) + {x}
    ensures seen + Elems(xs + [x]) == seen + Elems(xs) + {x}
  {
  }

  lemma NewNamesMore(seen: set<string>, xs: seq<string>, x: string)
    ensures NewNames(seen, xs + [x]) ==
            NewNames(seen, xs) + if x in seen + Elems(NewNames(seen, xs)) then [] else [x]
    ensures x in seen + Elems(NewNames(seen, xs)) ==> NewNames(seen, xs + [x]) == NewNames(seen, xs)
  {
    assert (xs + [x])[..|xs|] == xs;
  }

  /** The names a loop takes are the first occurrences of those outside `seen`, in order. */
  lemma {:induction false} NewNamesAt(seen: set<string>, xs: seq<string>) returns (at: seq<nat>)
    ensures AreFirsts(seen, xs, at) && Picks(xs, at, NewNames(seen, xs))
  {
    at := [];
    if xs != [] {
      hide *;
      var n := |xs| - 1;
      at := NewNamesAt(seen, xs[..n]);
      NewNamesNext(seen, xs, n, at);
      if First(seen, xs, n) {
        at := at + [n];
      }
    }
  }

  lemma NewNamesNext(seen: set<string>, xs: seq<string>, n: nat, at: seq<nat>)
    requires n + 1 == |xs| && AreFirsts(seen, xs[..n], at) && Picks(xs[..n], at, NewNames(seen, xs[..n]))
    ensures var at' := if First(seen, xs, n) then at + [n] else at;
            AreFirsts(seen, xs, at') && Picks(xs, at', NewNames(seen, xs))
  {
    hide AreFirsts;
    hide Picks;
    TakenIff(seen, xs[..n], at, xs[n]);
    FirstsMore(seen, xs, n, at);
    PicksMore(xs, n, at, NewNames(seen, xs[..n]));
  }

  lemma PicksMore(xs: seq<string>, n: nat, at: seq<nat>, picked: seq<string>)
    requires n + 1 == |xs| && Picks(xs[..n], at, picked)
    ensures Picks(xs, at, picked) && Picks(xs, at + [n], picked + [xs[n]])
  {
  }

  lemma TakenIff(seen: set<string>, xs: seq<string>, at: seq<nat>, x: string)
    requires AreFirsts(seen, xs, at) && Picks(xs, at, NewNames(seen, xs))
    ensures x !in seen ==> (x in NewNames(seen, xs) <==> x in xs)
  {
    if x in xs && x !in seen {
      var i := FirstExists(seen, xs, x);
      var m :| 0 <= m < |at| && at[m] == i;
      assert NewNames(seen, xs)[m] == x;
    }
  }

  lemma FirstsMore(seen: set<string>, xs: seq<string>, n: nat, at: seq<nat>)
    requires n + 1 == |xs| && AreFirsts(seen, xs[..n], at)
    ensures AreFirsts(seen, xs, if First(seen, xs, n) then at + [n] else at)
  {
    forall i: nat | i < n ensures First(seen, xs, i) <==> First(seen, xs[..n], i) {
      assert xs[..n][..i] == xs[..i];
    }
    var at' := if First(seen, xs, n) then at + [n] else at;
    forall i: nat | First(seen, xs, i) ensures i in at' {
      assert i < n ==> i in at;
    }
  }

  function ShodanHost(confidence: real): (nat, string) -> Find {
    (i: nat, name: string) =>
      Find("host", i, DOMAIN, name, VMap([Entry("discovered_via", VStr("shodan"))]), confidence, RESOLVES_TO, VMap([]),
           confidence, false)
  }

  /** Shodan's host names and then its domains that were not among the host names taken. */
  function ShodanFinds<X>(hosts: seq<X>, domains: seq<X>, pick: Pick<X, string>): seq<Find> {
    var first := NewNames({}, Picked(hosts, pick));
    CappedFinds(first, ShodanHost(0.8),
                NewNames(Elems(Take(first, MAX_ENTITIES)), Picked(domains, pick)), ShodanHost(0.7))
  }

  /** The two loops of the Shodan `query`. */
  method ShodanProposals<X>(hosts: seq<X>, domains: seq<X>, pick: Pick<X, string>)
    returns (entities: seq<EntityProposal>, relationships: seq<RelProposal>, truncated: bool)
    ensures entities == EntitiesOf(ShodanFinds(hosts, domains, pick))
    ensures relationships == RelsOf(ShodanFinds(hosts, domains, pick))
    ensures var taken := Take(NewNames({}, Picked(hosts, pick)), MAX_ENTITIES);
            truncated <==> LeavesNames(0, {}, hosts, pick) || LeavesNames(|taken|, Elems(taken), domains, pick)
  {
    var seen;
    entities, relationships, seen, truncated := DistinctLoop(hosts, pick, ShodanHost(0.8), [], [], {}, false);
    ghost var taken := Take(NewNames({}, Picked(hosts, pick)), MAX_ENTITIES);
    ghost var first := NumberedFrom(0, taken, ShodanHost(0.8));
    assert entities == EntitiesOf(first) && relationships == RelsOf(first);
    assert seen == Elems(taken);
    ghost var more := Take(NewNames(seen, Picked(domains, pick)), MAX_ENTITIES - |taken|);
    ghost var second := NumberedFrom(|taken|, more, ShodanHost(0.7));
    FindsMore(first, second);
    entities, relationships, seen, truncated :=
      DistinctLoop(domains, pick, ShodanHost(0.7), entities, relationships, seen, truncated);
  }

  /** A capped result is well formed, whatever the two lists hold, and has at most 101 proposals. */
  lemma CappedResult<P(!new), Q(!new)>(xs: seq<P>, find: (nat, P) -> Find, ys: seq<Q>, find': (nat, Q) -> Find,
                                       ev: EvidenceProposal)
    requires forall i: nat, x: P :: find(i, x).index == i
    requires forall i: nat, y: Q :: find'(i, y).index == i
    ensures var fs := CappedFinds(xs, find, ys, find');
            var q := QueryResult(EntitiesOf(fs), RelsOf(fs), [ev]);
            WellFormed(q) && |q.entities| <= MAX_ENTITIES && |q.entities| + |q.relationships| + |q.evidence| <= 101
  {
    var fs := CappedFinds(xs, find, ys, find');
    assert forall n :: 0 <= n < |fs| ==> fs[n].index == n;
    FindsAreWellFormed(fs, [ev]);
  }

  /** So are VirusTotal's and Shodan's results, at most 101 proposals each. */
  lemma VtAndShodanResults<X>(records: seq<X>, pickIp: Pick<X, (string, string)>, pickSub: Pick<X, string>,
                              names: seq<X>, pickName: Pick<X, string>, hosts: seq<X>, domains: seq<X>,
                              pick: Pick<X, string>, ev: EvidenceProposal)
    ensures var fs := CappedFinds(Picked(records, pickIp), VtAddress, Picked(records, pickSub), VtSubdomain);
            WellFormed(QueryResult(EntitiesOf(fs), RelsOf(fs), [ev])) && 2 * |fs| + 1 <= 101
    ensures var fs := NumberedFrom(0, Take(Picked(names, pickName), MAX_ENTITIES), VtDomain);
            WellFormed(QueryResult(EntitiesOf(fs), RelsOf(fs), [ev])) && 2 * |fs| + 1 <= 101
    ensures var fs := ShodanFinds(hosts, domains, pick);
            WellFormed(QueryResult(EntitiesOf(fs), RelsOf(fs), [ev])) && 2 * |fs| + 1 <= 101
  {
    CappedResult(Picked(records, pickIp), VtAddress, Picked(records, pickSub), VtSubdomain, ev);
    FindsAreWellFormed(NumberedFrom(0, Take(Picked(names, pickName), MAX_ENTITIES), VtDomain), [ev]);
    var first := NewNames({}, Picked(hosts, pick));
    CappedResult(first, ShodanHost(0.8),
                 NewNames(Elems(Take(first, MAX_ENTITIES)), Picked(domains, pick)), ShodanHost(0.7), ev);
  }

  // ---------- crt.sh ----------

  const MAX_SUBDOMAINS := 1000

  /** A candidate met when the lines before it already gave as many names as allowed. */
  predicate LeftOut(lines: seq<string>, n: nat, pick: Pick<string, string>)
    requires n < |lines|
  {
    pick(lines[n]).Some? && |Elems(Picked(lines[..n], pick))| >= MAX_SUBDOMAINS
  }

  /** The inner loop of `_extract_subdomains` over all name lines: the cap is tested before each add,
      for a name already collected too. */
  method ExtractSubdomains(lines: seq<string>, pick: Pick<string, string>)
    returns (result: set<string>, truncated: bool)
    ensures |result| <= 1000
    ensures result <= Elems(Picked(lines, pick))
    ensures truncated ==> |result| == 1000
    ensures !truncated ==> result == Elems(Picked(lines, pick))
    ensures truncated <==> exists n :: 0 <= n < |lines| && LeftOut(lines, n, pick)
  {
    result, truncated := {}, false;
    ghost var none: seq<string> := [];
    assert lines[..0] == [] && Elems(none) == {};
    assert lines[..|lines|] == lines;
    hide *;
    for i := 0 to |lines|
      invariant result == Elems(Picked(lines[..i], pick)) && |result| <= MAX_SUBDOMAINS
      invariant forall n :: 0 <= n < i ==> !LeftOut(lines, n, pick)
    {
      LineTaken(lines, i, pick);
      var name := pick(lines[i]);
      if name.None? {
        continue;
      }
      if |result| >= MAX_SUBDOMAINS {
        return result, true;
      }
      result := result + {name.value};
    }
  }

  /** What line `i` does to the names collected. */
  lemma LineTaken(lines: seq<string>, i: nat, pick: Pick<string, string>)
    requires i < |lines|
    ensures var before := Elems(Picked(lines[..i], pick));
            && Elems(Picked(lines[..i + 1], pick)) ==
               before + (if pick(lines[i]).Some? then {pick(lines[i]).value} else {})
            && before <= Elems(Picked(lines, pick))
            && (LeftOut(lines, i, pick) <==> pick(lines[i]).Some? && |before| >= MAX_SUBDOMAINS)
  {
    PickedMore(lines, i, pick);
    PickedPrefix(lines, i, pick);
    ElemsPrefix(Picked(lines[..i], pick), Picked(lines, pick));
    if pick(lines[i]).Some? {
      ElemsMore({}, Picked(lines[..i], pick), pick(lines[i]).value);
    }
  }

  function SubdomainFind(i: nat, name: string): Find {
    Find("sub", i, DOMAIN, name, VMap([Entry("discovered_via", VStr("crt.sh"))]), 0.8, SUBDOMAIN_OF, VMap([]), 0.9,
         false)
  }

  /** With `names` the sorted subdomains: the two comprehensions of the crt.sh `query`. */
  function CrtShResult(names: seq<string>, ev: EvidenceProposal): QueryResult {
    QueryResult(seq(|names|, i requires 0 <= i < |names| =>
                  EntityProposal(RefOf("sub", i), DOMAIN, names[i],
                                 VMap([Entry("discovered_via", VStr("crt.sh"))]), 0.8)),
                seq(|names|, i requires 0 <= i < |names| =>
                  RelProposal(Endpoint(false, Some(RefOf("sub", i))), INPUT_END, SUBDOMAIN_OF, 0.9, VMap([]))),
                [ev])
  }

  /** A crt.sh result of n names has 2n + 1 proposals: it passes the runner's cap of 2000 exactly when
      n is at most 999, one below the plugin's own cap. */
  lemma CrtShCap(names: seq<string>, ev: EvidenceProposal)
    ensures var q := CrtShResult(names, ev);
            && WellFormed(q)
            && |q.entities| + |q.relationships| + |q.evidence| == 2 * |names| + 1
            && (|q.entities| + |q.relationships| + |q.evidence| <= 2000 <==> |names| <= 999)
  {
    var fs := NumberedFrom(0, names, SubdomainFind);
    var q := CrtShResult(names, ev);
    assert q.entities == EntitiesOf(fs) && q.relationships == RelsOf(fs);
    FindsAreWellFormed(fs, [ev]);
  }

  // ---------- Fed to the runner ----------

  /** A well-formed result, in a case without duplicates, succeeds exactly when its attribute dicts are
      accepted and the input serves its relationships, and each of those ends at its own entity's row. */
  lemma WellFormedRuns(c: Ctx, db: DB, next: Id, q: QueryResult)
    requires Consistent(db, next) && UniqueEntities(db, c.caseId) && UniqueRels(db, c.caseId)
    requires c.input < next && WellFormed(q)
    ensures ApplyAll(c, Start(db, next), Proposals(q)).Ok? <==> AttrsAccepted(q) && InputServesAll(c, db, q)
    ensures AttrsAccepted(q) && InputServesAll(c, db, q) ==>
              var b := ApplyAll(c, Start(db, next), Proposals(q)).value;
              forall n :: 0 <= n < |q.entities| ==>
                            && q.entities[n].ref in b.refs
                            && b.refs[q.entities[n].ref] == TheEntity(b.db, c.caseId, ProposalKey(q.entities[n]))
  {
    BatchSucceedsIff(c, db, next, q);
    hide InputServesAll;
    if AttrsAccepted(q) && InputServesAll(c, db, q) {
      BatchIsOneShot(c, db, next, q);
      var b := ApplyAll(c, Start(db, next), Proposals(q)).value;
      forall n | 0 <= n < |q.entities|
        ensures && q.entities[n].ref in b.refs
                && b.refs[q.entities[n].ref] == TheEntity(b.db, c.caseId, ProposalKey(q.entities[n]))
      {
        RefMeansItsProposal(b.db, c.caseId, map[], q.entities, n);
      }
    }
  }
}
