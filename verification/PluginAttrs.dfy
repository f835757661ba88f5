/** The attribute dicts of the built-in plugins: a few fixed keys over short strings and small numbers,
    which the validator accepts. */
module PluginAttrs {
  import opened Prelude
  import opened Text
  import opened Values
  import opened Json
  import opened Validators
  import opened Batches
  import opened BatchTheorems
  import opened Wayback
  import opened Firsts
  import opened Plugins

  // ---------- Dicts that are always accepted ----------

  const MAX_TEXT := 1000

  /** A string of at most 1000 characters or a number of at most 16 bits. */
  predicate SmallScalar(v: Value) {
    (v.VStr? && |v.s| <= MAX_TEXT) || (v.VInt? && -0x1_0000 < v.n < 0x1_0000)
  }

  predicate SmallEntry(e: Entry) {
    LegalKey(e.key) && SmallScalar(e.value)
  }

  predicate SmallDict(v: Value) {
    v.VMap? && |v.entries| <= 4 && forall n :: 0 <= n < |v.entries| ==> SmallEntry(v.entries[n])
  }

  lemma {:induction false} QuoteSize(s: string)
    ensures |Quote(s, true)| <= 12 * |s| + 2
  {
    if s != [] {
      QuoteSize(s[1..]);
      assert |EscapeChar(s[0], true)| <= 12;
    }
  }

  lemma {:induction false} DecimalSize(n: nat)
    ensures |Decimal(n)| <= 1 + n / 10
  {
    if n >= 10 {
      DecimalSize(n / 10);
    }
  }

  lemma EntrySize(e: Entry)
    requires SmallEntry(e)
    ensures |DumpEntry(e, DEFAULT_STYLE)| <= 13000
  {
    QuoteSize(e.key);
    if e.value.VStr? {
      QuoteSize(e.value.s);
    } else {
      DecimalSize(if e.value.n < 0 then -e.value.n else e.value.n);
    }
    hide Quote;
    hide LegalKey;
  }

  lemma {:induction false} EntriesSize(es: seq<Entry>)
    requires forall n :: 0 <= n < |es| ==> SmallEntry(es[n])
    ensures |DumpEntries(es, DEFAULT_STYLE)| <= 13002 * |es|
    ensures WalkEntries(es, 1).None?
  {
    if es != [] {
      EntrySize(es[0]);
      EntriesSize(es[1..]);
      hide DumpEntry;
    }
  }

  lemma SmallDictAccepted(v: Value)
    requires SmallDict(v)
    ensures Accepts(v)
  {
    EntriesSize(v.entries);
    hide DumpEntries;
    hide WalkEntries;
    assert Walk(v, 0) == WalkEntries(v.entries, 1);
    assert JsonSize(v) == |DumpEntries(v.entries, DEFAULT_STYLE)| + 2;
  }

  /** Which keys the validator lets through: 1 to 64 ASCII letters, digits and underscores, no digit first. */
  lemma KeyAcceptedIff(k: string)
    ensures Accepts(VMap([Entry(k, VInt(0))])) <==>
            && 1 <= |k| <= 64
            && (forall i :: 0 <= i < |k| ==>
                  'A' <= k[i] <= 'Z' || 'a' <= k[i] <= 'z' || k[i] == '_' || '0' <= k[i] <= '9')
            && !('0' <= k[0] <= '9')
  {
    var v := VMap([Entry(k, VInt(0))]);
    if LegalKey(k) {
      SmallDictAccepted(v);
    } else {
      hide LegalKey;
      assert WalkEntries(v.entries, 1) == Some(BadKey(k));
      assert Walk(v, 0) == WalkEntries(v.entries, 1);
    }
  }

  // ---------- Finds ----------

  predicate SmallFind(f: Find) {
    SmallDict(f.attrs) && SmallDict(f.relAttrs)
  }

  predicate AllSmall(fs: seq<Find>) {
    forall n :: 0 <= n < |fs| ==> SmallFind(fs[n])
  }

  function ResultOf(fs: seq<Find>, ev: EvidenceProposal): QueryResult {
    QueryResult(EntitiesOf(fs), RelsOf(fs), [ev])
  }

  /** Only the evidence item's reproducibility spec is left to check. */
  lemma SmallFindsAccepted(fs: seq<Find>, ev: EvidenceProposal)
    requires AllSmall(fs)
    ensures AttrsAccepted(ResultOf(fs, ev)) <==> Accepts(ev.spec)
  {
    hide Accepts;
    hide SmallDict;
    forall n | 0 <= n < |fs| ensures Accepts(EntityOf(fs[n]).attrs) && Accepts(RelOf(fs[n]).attrs) {
      assert SmallFind(fs[n]);
      SmallDictAccepted(fs[n].attrs);
      SmallDictAccepted(fs[n].relAttrs);
    }
    var q := ResultOf(fs, ev);
    assert AttrsAccepted(q) ==> Accepts(q.evidence[0].spec);
  }

  lemma OneSmall(key: string, value: Value)
    requires LegalKey(key) && SmallScalar(value)
    ensures SmallDict(VMap([])) && SmallDict(VMap([Entry(key, value)]))
  {
  }

  lemma FixedKeys()
    ensures LegalKey("discovered_via") && LegalKey("rdtype") && LegalKey("role") && LegalKey("preference")
    ensures LegalKey("first_seen") && LegalKey("last_seen") && LegalKey("status_code")
  {
  }

  /** A record type VirusTotal's first pass lets through. */
  predicate IsAddressType(rdtype: string) {
    rdtype == "A" || rdtype == "AAAA"
  }

  lemma VtSmall(i: nat, a: (string, string), name: string)
    ensures IsAddressType(a.1) ==> SmallFind(VtAddress(i, a))
    ensures SmallFind(VtSubdomain(i, name)) && SmallFind(VtDomain(i, name))
  {
    FixedKeys();
    hide LegalKey;
    OneSmall("discovered_via", VStr("virustotal"));
  }

  lemma HostSmall(i: nat, name: string, confidence: real)
    ensures SmallFind(ShodanHost(confidence)(i, name)) && SmallFind(SubdomainFind(i, name))
  {
    FixedKeys();
    hide LegalKey;
    OneSmall("discovered_via", VStr("shodan"));
    OneSmall("discovered_via", VStr("crt.sh"));
  }

  lemma DnsSmall(i: nat, name: string, mx: (int, string))
    ensures SmallFind(AFind(i, name)) && SmallFind(AaaaFind(i, name)) && SmallFind(NameserverFind(i, name))
    ensures -0x1_0000 < mx.0 < 0x1_0000 ==> SmallFind(MxFind(i, mx))
  {
    FixedKeys();
    hide LegalKey;
  }

  predicate ShortCells(s: Snapshot) {
    |s.firstSeen| <= MAX_TEXT && |s.lastSeen| <= MAX_TEXT && |s.status| <= MAX_TEXT
  }

  lemma SnapshotSmall(i: nat, s: Snapshot)
    requires ShortCells(s)
    ensures SmallFind(SnapshotFind(i, s))
  {
    FixedKeys();
    hide LegalKey;
  }

  lemma {:induction false} PickedAre<X(!new), P>(xs: seq<X>, pick: Pick<X, P>, ok: P -> bool)
    requires forall x :: pick(x).Some? ==> ok(pick(x).value)
    ensures forall n :: 0 <= n < |Picked(xs, pick)| ==> ok(Picked(xs, pick)[n])
  {
    if xs != [] {
      PickedAre(xs[..|xs| - 1], pick, ok);
    }
  }

  lemma NumberedSmall<P>(from: nat, xs: seq<P>, find: (nat, P) -> Find)
    requires forall i: nat, n :: 0 <= n < |xs| ==> SmallFind(find(i, xs[n]))
    ensures AllSmall(NumberedFrom(from, xs, find))
  {
    hide SmallFind;
  }

  lemma BothSmall(fs: seq<Find>, gs: seq<Find>)
    requires AllSmall(fs) && AllSmall(gs)
    ensures AllSmall(fs + gs)
  {
    hide SmallFind;
  }

  /** VirusTotal's results are accepted but for their evidence item's spec. */
  lemma VtAccepted<X(!new)>(records: seq<X>, pickIp: Pick<X, (string, string)>, pickSub: Pick<X, string>,
                            names: seq<X>, pickName: Pick<X, string>, ev: EvidenceProposal)
    requires forall x :: pickIp(x).Some? ==> IsAddressType(pickIp(x).value.1)
    ensures var fs := CappedFinds(Picked(records, pickIp), VtAddress, Picked(records, pickSub), VtSubdomain);
            AllSmall(fs) && (AttrsAccepted(ResultOf(fs, ev)) <==> Accepts(ev.spec))
    ensures var fs := NumberedFrom(0, Take(Picked(names, pickName), MAX_ENTITIES), VtDomain);
            AllSmall(fs) && (AttrsAccepted(ResultOf(fs, ev)) <==> Accepts(ev.spec))
  {
    hide Accepts;
    hide SmallFind;
    hide AttrsAccepted;
    hide AllSmall;
    hide NumberedFrom;
    hide Picked;
    hide ResultOf;
    PickedAre(records, pickIp, (a: (string, string)) => IsAddressType(a.1));
    forall i: nat, a: (string, string) | IsAddressType(a.1) ensures SmallFind(VtAddress(i, a)) {
      VtSmall(i, a, "");
    }
    forall i: nat, name: string ensures SmallFind(VtSubdomain(i, name)) {
      VtSmall(i, ("", ""), name);
    }
    forall i: nat, name: string ensures SmallFind(VtDomain(i, name)) {
      VtSmall(i, ("", ""), name);
    }
    var first := Take(Picked(records, pickIp), MAX_ENTITIES);
    var second := Take(Picked(records, pickSub), MAX_ENTITIES - |first|);
    NumberedSmall(0, first, VtAddress);
    NumberedSmall(|first|, second, VtSubdomain);
    BothSmall(NumberedFrom(0, first, VtAddress), NumberedFrom(|first|, second, VtSubdomain));
    SmallFindsAccepted(CappedFinds(Picked(records, pickIp), VtAddress, Picked(records, pickSub), VtSubdomain), ev);
    NumberedSmall(0, Take(Picked(names, pickName), MAX_ENTITIES), VtDomain);
    SmallFindsAccepted(NumberedFrom(0, Take(Picked(names, pickName), MAX_ENTITIES), VtDomain), ev);
  }

  /** So are Shodan's. */
  lemma ShodanAccepted<X>(hosts: seq<X>, domains: seq<X>, pick: Pick<X, string>, ev: EvidenceProposal)
    ensures var fs := ShodanFinds(hosts, domains, pick);
            AllSmall(fs) && (AttrsAccepted(ResultOf(fs, ev)) <==> Accepts(ev.spec))
  {
    hide Accepts;
    hide SmallFind;
    hide AttrsAccepted;
    hide AllSmall;
    hide NumberedFrom;
    hide Picked;
    hide ResultOf;
    hide NewNames;
    forall i: nat, name: string, confidence: real ensures SmallFind(ShodanHost(confidence)(i, name)) {
      HostSmall(i, name, confidence);
    }
    var all := NewNames({}, Picked(hosts, pick));
    var first := Take(all, MAX_ENTITIES);
    var second := Take(NewNames(Elems(first), Picked(domains, pick)), MAX_ENTITIES - |first|);
    NumberedSmall(0, first, ShodanHost(0.8));
    NumberedSmall(|first|, second, ShodanHost(0.7));
    BothSmall(NumberedFrom(0, first, ShodanHost(0.8)), NumberedFrom(|first|, second, ShodanHost(0.7)));
    SmallFindsAccepted(ShodanFinds(hosts, domains, pick), ev);
  }

  /** So are crt.sh's. */
  lemma CrtShAccepted(names: seq<string>, ev: EvidenceProposal)
    ensures var fs := NumberedFrom(0, names, SubdomainFind);
            CrtShResult(names, ev) == ResultOf(fs, ev) && DistinctTags(fs) && AllSmall(fs)
    ensures AttrsAccepted(CrtShResult(names, ev)) <==> Accepts(ev.spec)
  {
    hide Accepts;
    hide SmallFind;
    hide AttrsAccepted;
    forall i: nat, name: string ensures SmallFind(SubdomainFind(i, name)) {
      HostSmall(i, name, 0.8);
    }
    NumberedSmall(0, names, SubdomainFind);
    SmallFindsAccepted(NumberedFrom(0, names, SubdomainFind), ev);
    assert CrtShResult(names, ev) == ResultOf(NumberedFrom(0, names, SubdomainFind), ev);
  }

  /** So are those of dns_whois, whose preferences have 16 bits. */
  lemma DnsAccepted(a: seq<string>, aaaa: seq<string>, ns: seq<string>, mx: seq<(int, string)>, ev: EvidenceProposal)
    requires forall i :: 0 <= i < |mx| ==> 0 <= mx[i].0 < 0x1_0000
    ensures var fs := DnsFinds(a, aaaa, ns, mx);
            AllSmall(fs) && (AttrsAccepted(ResultOf(fs, ev)) <==> Accepts(ev.spec))
  {
    hide Accepts;
    hide SmallFind;
    hide AttrsAccepted;
    hide AllSmall;
    hide Numbered;
    hide ResultOf;
    forall i: nat, name: string ensures SmallFind(AFind(i, name)) {
      DnsSmall(i, name, (0, ""));
    }
    forall i: nat, name: string ensures SmallFind(AaaaFind(i, name)) {
      DnsSmall(i, name, (0, ""));
    }
    forall i: nat, name: string ensures SmallFind(NameserverFind(i, name)) {
      DnsSmall(i, name, (0, ""));
    }
    forall i: nat, x: (int, string) | 0 <= x.0 < 0x1_0000 ensures SmallFind(MxFind(i, x)) {
      DnsSmall(i, "", x);
    }
    NumberedAllSmall(a, AFind);
    NumberedAllSmall(aaaa, AaaaFind);
    NumberedAllSmall(ns, NameserverFind);
    NumberedAllSmall(mx, MxFind);
    BothSmall(Numbered(a, AFind), Numbered(aaaa, AaaaFind));
    BothSmall(Numbered(a, AFind) + Numbered(aaaa, AaaaFind), Numbered(ns, NameserverFind));
    BothSmall(Numbered(a, AFind) + Numbered(aaaa, AaaaFind) + Numbered(ns, NameserverFind), Numbered(mx, MxFind));
    SmallFindsAccepted(DnsFinds(a, aaaa, ns, mx), ev);
  }

  lemma NumberedAllSmall<P>(xs: seq<P>, find: (nat, P) -> Find)
    requires forall i: nat, n :: 0 <= n < |xs| ==> SmallFind(find(i, xs[n]))
    ensures AllSmall(Numbered(xs, find))
  {
    hide SmallFind;
  }

  /** So are Wayback's, if the archive's cells are at most 1000 characters long. */
  lemma {:induction false} WaybackAccepted(snapshots: seq<Snapshot>, n: nat, ev: EvidenceProposal)
    requires n <= |snapshots| && forall i :: 0 <= i < |snapshots| ==> ShortCells(snapshots[i])
    ensures AllSmall(KeptFinds(snapshots, n))
    ensures AttrsAccepted(ResultOf(KeptFinds(snapshots, n), ev)) <==> Accepts(ev.spec)
  {
    if n > 0 {
      WaybackAccepted(snapshots, n - 1, ev);
      SnapshotSmall(n - 1, snapshots[n - 1]);
    }
    hide SmallFind;
    hide Accepts;
    SmallFindsAccepted(KeptFinds(snapshots, n), ev);
  }
}
