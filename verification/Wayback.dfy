/** The Wayback plugin's snapshot grouping: rows collapsed by URL, then sorted by first sighting. */
module Wayback {
  import opened StringOrder

  /** A usable CDX row: timestamp, original URL, status code. */
  datatype Row = Row(timestamp: string, url: string, status: string)

  datatype Snapshot = Snapshot(url: string, firstSeen: string, lastSeen: string, status: string)

  datatype Seen = Seen(firstSeen: string, lastSeen: string, status: string)

  /** Python's `a < b` on strings. */
  predicate Less(a: string, b: string) {
    !StrLe(b, a)
  }

  /** Rows with at least three cells and a non-empty URL, in order. */
  function Usable(raw: seq<seq<string>>): seq<Row> {
    if raw == [] then []
    else
      var last := raw[|raw| - 1];
      Usable(raw[..|raw| - 1]) + if |last| < 3 || last[1] == "" then [] else [Row(last[0], last[1], last[2])]
  }

  function Fresh(r: Row): Snapshot {
    Snapshot(r.url, r.timestamp, r.timestamp, r.status)
  }

  function Widen(s: Snapshot, ts: string): Snapshot {
    s.(firstSeen := if Less(ts, s.firstSeen) then ts else s.firstSeen,
       lastSeen := if Less(s.lastSeen, ts) then ts else s.lastSeen)
  }

  // ---------- What a collapse is ----------

  function Urls(rows: seq<Row>): set<string> {
    set r | r in rows :: r.url
  }

  /** When a URL was sighted. */
  function Stamps(rows: seq<Row>, url: string): set<string> {
    set r | r in rows && r.url == url :: r.timestamp
  }

  /** Index of the first row of a URL, or past the end. */
  function FirstIndex(rows: seq<Row>, url: string): (n: nat)
    ensures n <= |rows| && (n < |rows| ==> rows[n].url == url)
    ensures forall m :: 0 <= m < n ==> rows[m].url != url
  {
    if rows == [] || rows[0].url == url then 0 else 1 + FirstIndex(rows[1..], url)
  }

  /** `s` is its URL's snapshot: its earliest and latest timestamps and its first row's status. */
  ghost predicate Summarises(rows: seq<Row>, s: Snapshot) {
    && s.firstSeen in Stamps(rows, s.url) && s.lastSeen in Stamps(rows, s.url)
    && (forall ts :: ts in Stamps(rows, s.url) ==> StrLe(s.firstSeen, ts) && StrLe(ts, s.lastSeen))
    && FirstIndex(rows, s.url) < |rows| && rows[FirstIndex(rows, s.url)].status == s.status
  }

  function SnapUrls(out: seq<Snapshot>): set<string> {
    set s | s in out :: s.url
  }

  predicate DistinctUrls(out: seq<Snapshot>) {
    forall i, j :: 0 <= i < j < |out| ==> out[i].url != out[j].url
  }

  /** One snapshot per distinct URL, each summarising its rows. */
  ghost predicate Collapses(rows: seq<Row>, out: seq<Snapshot>) {
    DistinctUrls(out) && SnapUrls(out) == Urls(rows) && forall s :: s in out ==> Summarises(rows, s)
  }

  /** In order of first appearance. */
  predicate ByAppearance(rows: seq<Row>, out: seq<Snapshot>) {
    forall i, j :: 0 <= i < j < |out| ==> FirstIndex(rows, out[i].url) < FirstIndex(rows, out[j].url)
  }

  // ---------- One more row ----------

  lemma RowsMore(rows: seq<Row>, r: Row, url: string)
    ensures Urls(rows + [r]) == Urls(rows) + {r.url}
    ensures Stamps(rows + [r], url) == Stamps(rows, url) + if r.url == url then {r.timestamp} else {}
    ensures FirstIndex(rows + [r], url) ==
            if url in Urls(rows) || r.url == url then FirstIndex(rows, url) else |rows| + 1
  {
    var rows' := rows + [r];
    assert forall x :: x in rows' <==> x in rows || x == r;
    var n, n' := FirstIndex(rows, url), FirstIndex(rows', url);
    if n < |rows| {
      assert rows[n] in rows;
      assert rows'[n].url == url;
    } else {
      assert forall m :: 0 <= m < |rows| ==> rows'[m] == rows[m];
      assert url !in Urls(rows);
    }
  }

  lemma SummarisesMore(rows: seq<Row>, r: Row, s: Snapshot)
    requires Summarises(rows, s)
    ensures r.url != s.url ==> Summarises(rows + [r], s)
    ensures r.url == s.url ==> Summarises(rows + [r], Widen(s, r.timestamp))
  {
    RowsMore(rows, r, s.url);
    assert rows[FirstIndex(rows, s.url)] in rows;
    if r.url == s.url {
      StrLeTotal(r.timestamp, s.firstSeen);
      StrLeTotal(s.lastSeen, r.timestamp);
      StrLeTotal(r.timestamp, r.timestamp);
      var w := Widen(s, r.timestamp);
      forall ts | ts in Stamps(rows + [r], s.url)
        ensures StrLe(w.firstSeen, ts) && StrLe(ts, w.lastSeen)
      {
        if ts in Stamps(rows, s.url) {
          if w.firstSeen != s.firstSeen {
            StrLeTransitive(w.firstSeen, s.firstSeen, ts);
          }
          if w.lastSeen != s.lastSeen {
            StrLeTransitive(ts, s.lastSeen, w.lastSeen);
          }
        }
      }
    }
  }

  lemma SummarisesNew(rows: seq<Row>, r: Row)
    requires r.url !in Urls(rows)
    ensures Summarises(rows + [r], Fresh(r))
  {
    RowsMore(rows, r, r.url);
    assert Stamps(rows, r.url) == {};
    StrLeTotal(r.timestamp, r.timestamp);
  }

  lemma CollapsesMore(rows: seq<Row>, r: Row, out: seq<Snapshot>, i: nat)
    requires Collapses(rows, out) && i < |out| && out[i].url == r.url
    ensures Collapses(rows + [r], out[i := Widen(out[i], r.timestamp)])
    ensures SnapUrls(out[i := Widen(out[i], r.timestamp)]) == SnapUrls(out)
  {
    hide Summarises;
    var w := Widen(out[i], r.timestamp);
    var out' := out[i := w];
    assert out[i] in out;
    RowsMore(rows, r, r.url);
    forall s | s in out' ensures Summarises(rows + [r], s) {
      var j :| 0 <= j < |out'| && out'[j] == s;
      assert out[j] in out;
      SummarisesMore(rows, r, out[j]);
    }
    forall u ensures u in SnapUrls(out) <==> u in SnapUrls(out') {
      if u in SnapUrls(out) {
        var s :| s in out && s.url == u;
        var j :| 0 <= j < |out| && out[j] == s;
        assert out'[j] in out';
      }
      if u in SnapUrls(out') {
        var s :| s in out' && s.url == u;
        var j :| 0 <= j < |out'| && out'[j] == s;
        assert out[j] in out;
      }
    }
  }

  lemma CollapsesNew(rows: seq<Row>, r: Row, out: seq<Snapshot>)
    requires Collapses(rows, out) && r.url !in SnapUrls(out)
    ensures Collapses(rows + [r], out + [Fresh(r)])
  {
    hide Summarises;
    var out' := out + [Fresh(r)];
    assert forall s :: s in out' <==> s in out || s == Fresh(r);
    RowsMore(rows, r, r.url);
    SummarisesNew(rows, r);
    forall s | s in out ensures Summarises(rows + [r], s) {
      assert s.url in SnapUrls(out);
      SummarisesMore(rows, r, s);
    }
    forall i | 0 <= i < |out| ensures out[i].url != r.url {
      assert out[i] in out;
    }
  }

  /** A widened snapshot keeps its place; a new one comes last. */
  lemma AppearanceMore(rows: seq<Row>, r: Row, out: seq<Snapshot>, out': seq<Snapshot>)
    requires ByAppearance(rows, out) && SnapUrls(out) == Urls(rows)
    requires |out| <= |out'| <= |out| + 1 && forall i :: 0 <= i < |out| ==> out'[i].url == out[i].url
    requires |out'| == |out| + 1 ==> out'[|out|].url == r.url && r.url !in Urls(rows)
    ensures ByAppearance(rows + [r], out')
  {
    forall i | 0 <= i < |out|
      ensures FirstIndex(rows + [r], out'[i].url) == FirstIndex(rows, out[i].url) < |rows|
    {
      assert out[i] in out && out[i].url in SnapUrls(out);
      var x :| x in rows && x.url == out[i].url;
      RowsMore(rows, r, out[i].url);
    }
    if |out'| > |out| {
      RowsMore(rows, r, r.url);
      if FirstIndex(rows, r.url) < |rows| {
        assert rows[FirstIndex(rows, r.url)] in rows;
      }
    }
  }

  /** The `by_url` dictionary: its URLs in insertion order and what each maps to. */
  function Listed(order: seq<string>, byUrl: map<string, Seen>): seq<Snapshot>
    requires forall u :: u in order ==> u in byUrl
  {
    seq(|order|, i requires 0 <= i < |order| =>
      assert order[i] in order;
      var e := byUrl[order[i]];
      Snapshot(order[i], e.firstSeen, e.lastSeen, e.status))
  }

  // ---------- The stable sort ----------

  function InsertSnap(s: Snapshot, out: seq<Snapshot>): seq<Snapshot> {
    if out == [] then [s]
    else if Less(out[0].firstSeen, s.firstSeen) then [out[0]] + InsertSnap(s, out[1..])
    else [s] + out
  }

  /** Stable sort by `firstSeen`. */
  function SortByFirst(out: seq<Snapshot>): seq<Snapshot> {
    if out == [] then [] else InsertSnap(out[0], SortByFirst(out[1..]))
  }

  ghost predicate ByFirst(out: seq<Snapshot>) {
    forall i, j :: 0 <= i < j < |out| ==> StrLe(out[i].firstSeen, out[j].firstSeen)
  }

  /** The snapshots first seen at `ts`, in order. */
  function At(out: seq<Snapshot>, ts: string): seq<Snapshot> {
    if out == [] then [] else (if out[0].firstSeen == ts then [out[0]] else []) + At(out[1..], ts)
  }

  lemma {:induction false} InsertSnapSorts(s: Snapshot, out: seq<Snapshot>)
    requires ByFirst(out)
    ensures ByFirst(InsertSnap(s, out)) && multiset(InsertSnap(s, out)) == multiset(out) + multiset{s}
  {
    if out != [] {
      hide StrLe;
      assert out == [out[0]] + out[1..];
      StrLeTotal(out[0].firstSeen, s.firstSeen);
      if Less(out[0].firstSeen, s.firstSeen) {
        InsertSnapSorts(s, out[1..]);
        var rest := InsertSnap(s, out[1..]);
        forall j | 0 <= j < |rest| ensures StrLe(out[0].firstSeen, rest[j].firstSeen) {
          assert rest[j] in multiset(rest);
          if rest[j] != s {
            assert rest[j] in out[1..];
          }
        }
      } else {
        forall j | 0 <= j < |out| ensures StrLe(s.firstSeen, out[j].firstSeen) {
          if j > 0 {
            StrLeTransitive(s.firstSeen, out[0].firstSeen, out[j].firstSeen);
          }
        }
      }
    }
  }

  lemma AtCons(s: Snapshot, out: seq<Snapshot>, ts: string)
    ensures At([s] + out, ts) == (if s.firstSeen == ts then [s] else []) + At(out, ts)
  {
    assert ([s] + out)[1..] == out;
  }

  lemma {:induction false} InsertSnapStable(s: Snapshot, out: seq<Snapshot>, ts: string)
    ensures At(InsertSnap(s, out), ts) == (if s.firstSeen == ts then [s] else []) + At(out, ts)
  {
    if out == [] {
      AtCons(s, [], ts);
    } else if Less(out[0].firstSeen, s.firstSeen) {
      InsertSnapStable(s, out[1..], ts);
      StrLeTotal(ts, ts);
      AtCons(out[0], InsertSnap(s, out[1..]), ts);
    } else {
      AtCons(s, out, ts);
    }
  }

  /** Ascending by first sighting, a permutation, and stable: snapshots first seen at the same moment keep
      their order. */
  lemma SortIsStable(out: seq<Snapshot>, ts: string)
    ensures ByFirst(SortByFirst(out)) && multiset(SortByFirst(out)) == multiset(out)
    ensures At(SortByFirst(out), ts) == At(out, ts)
    ensures var sorted := SortByFirst(out);
            forall i, j :: 0 <= i < j < |sorted| ==> NotAfter(sorted[i].firstSeen, sorted[j].firstSeen)
  {
    SortSorts(out, ts);
    var sorted := SortByFirst(out);
    forall i, j | 0 <= i < j < |sorted| ensures NotAfter(sorted[i].firstSeen, sorted[j].firstSeen) {
      StrLeByPosition(sorted[i].firstSeen, sorted[j].firstSeen);
    }
  }

  lemma {:induction false} SortSorts(out: seq<Snapshot>, ts: string)
    ensures ByFirst(SortByFirst(out)) && multiset(SortByFirst(out)) == multiset(out)
    ensures At(SortByFirst(out), ts) == At(out, ts)
  {
    if out != [] {
      SortSorts(out[1..], ts);
      InsertSnapSorts(out[0], SortByFirst(out[1..]));
      InsertSnapStable(out[0], SortByFirst(out[1..]), ts);
      assert out == [out[0]] + out[1..];
    }
  }

  /** One more usable row in the dictionary. */
  method Note(order: seq<string>, byUrl: map<string, Seen>, r: Row, ghost rows: seq<Row>)
    returns (order': seq<string>, byUrl': map<string, Seen>)
    requires DictOk(rows, order, byUrl)
    ensures DictOk(rows + [r], order', byUrl')
  {
    hide Summarises;
    hide ByAppearance;
    ghost var before := Listed(order, byUrl);
    order', byUrl' := order, byUrl;
    if r.url !in byUrl {
      byUrl' := byUrl[r.url := Seen(r.timestamp, r.timestamp, r.status)];
      order' := order + [r.url];
      assert Listed(order', byUrl') == before + [Fresh(r)];
      assert r.url !in SnapUrls(before);
      CollapsesNew(rows, r, before);
    } else {
      var entry := byUrl[r.url];
      if Less(r.timestamp, entry.firstSeen) {
        entry := entry.(firstSeen := r.timestamp);
      }
      if Less(entry.lastSeen, r.timestamp) {
        entry := entry.(lastSeen := r.timestamp);
      }
      byUrl' := byUrl[r.url := entry];
      ghost var k :| 0 <= k < |order| && order[k] == r.url;
      WidenedAt(order, byUrl, r, entry, k);
      CollapsesMore(rows, r, before, k);
    }
    AppearanceMore(rows, r, before, Listed(order', byUrl'));
  }

  lemma WidenedAt(order: seq<string>, byUrl: map<string, Seen>, r: Row, entry: Seen, k: nat)
    requires DistinctOrder(order) && (forall u :: u in order ==> u in byUrl)
    requires k < |order| && order[k] == r.url && r.url in byUrl
    requires entry.status == byUrl[r.url].status
    requires entry.firstSeen ==
             if Less(r.timestamp, byUrl[r.url].firstSeen) then r.timestamp else byUrl[r.url].firstSeen
    requires entry.lastSeen == if Less(byUrl[r.url].lastSeen, r.timestamp) then r.timestamp else byUrl[r.url].lastSeen
    ensures Listed(order, byUrl[r.url := entry]) ==
            Listed(order, byUrl)[k := Widen(Listed(order, byUrl)[k], r.timestamp)]
  {
  }

  predicate DistinctOrder(order: seq<string>) {
    forall a, b :: 0 <= a < b < |order| ==> order[a] != order[b]
  }

  /** The dictionary lists the collapse of the rows so far, in order of first appearance. */
  ghost predicate DictOk(rows: seq<Row>, order: seq<string>, byUrl: map<string, Seen>) {
    && (forall u :: u in order <==> u in byUrl) && DistinctOrder(order)
    && Collapses(rows, Listed(order, byUrl)) && ByAppearance(rows, Listed(order, byUrl))
  }

  // ---------- The same, cell by cell ----------

  /** Line `n` of the response sights the URL: it has three cells or more, and its second one is not empty. */
  predicate Sights(raw: seq<seq<string>>, n: nat, url: string) {
    n < |raw| && |raw[n]| >= 3 && raw[n][1] == url && url != ""
  }

  /** Line `n` is the first to sight the URL. */
  ghost predicate SightsFirst(raw: seq<seq<string>>, n: nat, url: string) {
    Sights(raw, n, url) && forall m: nat :: m < n ==> !Sights(raw, m, url)
  }

  /** The snapshot has the first and the last of its URL's timestamps and the status of the line that
      sights it first. */
  ghost predicate SnapshotOf(raw: seq<seq<string>>, s: Snapshot) {
    && (exists n: nat :: Sights(raw, n, s.url) && raw[n][0] == s.firstSeen)
    && (exists n: nat :: Sights(raw, n, s.url) && raw[n][0] == s.lastSeen)
    && (forall n: nat :: Sights(raw, n, s.url) ==>
          NotAfter(s.firstSeen, raw[n][0]) && NotAfter(raw[n][0], s.lastSeen))
    && (exists n: nat :: SightsFirst(raw, n, s.url) && raw[n][2] == s.status)
  }

  /** One snapshot for each URL that is sighted, each once. */
  ghost predicate SnapshotsOf(raw: seq<seq<string>>, out: seq<Snapshot>) {
    && DistinctUrls(out) && (forall s :: s in out ==> SnapshotOf(raw, s))
    && (forall n: nat, url :: Sights(raw, n, url) ==> url in SnapUrls(out))
  }

  /** By first sighting, and by the line that sights it first when that is the same. */
  ghost predicate InOrder(raw: seq<seq<string>>, out: seq<Snapshot>) {
    forall i, j :: 0 <= i < j < |out| ==>
      && NotAfter(out[i].firstSeen, out[j].firstSeen)
      && (out[i].firstSeen == out[j].firstSeen ==> SightedBefore(raw, out[i].url, out[j].url))
  }

  ghost predicate SightedBefore(raw: seq<seq<string>>, url: string, url': string) {
    exists m: nat, n: nat :: m < n && SightsFirst(raw, m, url) && SightsFirst(raw, n, url')
  }

  /** The usable rows are the lines `at`, in order, and no other line sights a URL. */
  ghost predicate UsableAt(raw: seq<seq<string>>, rows: seq<Row>, at: seq<nat>) {
    && |at| == |rows| && (forall i, j :: 0 <= i < j < |at| ==> at[i] < at[j])
    && (forall i :: 0 <= i < |at| ==>
          && at[i] < |raw| && Sights(raw, at[i], rows[i].url)
          && rows[i] == Row(raw[at[i]][0], raw[at[i]][1], raw[at[i]][2]))
    && (forall n: nat, url :: Sights(raw, n, url) ==> n in at)
  }

  lemma {:induction false} UsableLines(raw: seq<seq<string>>) returns (at: seq<nat>)
    ensures UsableAt(raw, Usable(raw), at)
  {
    at := [];
    if raw != [] {
      hide *;
      hide Usable;
      var n := |raw| - 1;
      at := UsableLines(raw[..n]);
      UsableNext(raw, n);
      assert raw[..n + 1] == raw;
      UsableMore(raw, n, Usable(raw[..n]), at);
      if !(|raw[n]| < 3 || raw[n][1] == "") {
        at := at + [n];
      }
    }
  }

  lemma UsableMore(raw: seq<seq<string>>, n: nat, rows: seq<Row>, at: seq<nat>)
    requires n + 1 == |raw| && UsableAt(raw[..n], rows, at)
    ensures if |raw[n]| < 3 || raw[n][1] == "" then UsableAt(raw, rows, at)
            else UsableAt(raw, rows + [Row(raw[n][0], raw[n][1], raw[n][2])], at + [n])
  {
    hide Usable;
    forall m: nat, url ensures Sights(raw, m, url) <==> Sights(raw[..n], m, url) || (m == n && Sights(raw, n, url)) {
    }
  }

  /** The first usable row of a URL is the first line that sights it. */
  lemma FirstLine(raw: seq<seq<string>>, rows: seq<Row>, at: seq<nat>, url: string)
    requires UsableAt(raw, rows, at) && FirstIndex(rows, url) < |rows|
    ensures SightsFirst(raw, at[FirstIndex(rows, url)], url)
  {
    var k := FirstIndex(rows, url);
    forall m: nat | Sights(raw, m, url) ensures at[k] <= m {
      var i :| 0 <= i < |at| && at[i] == m;
      assert rows[i].url == url;
      assert i == k || at[k] < at[i];
    }
  }

  lemma SummaryByCell(raw: seq<seq<string>>, rows: seq<Row>, at: seq<nat>, s: Snapshot)
    requires UsableAt(raw, rows, at) && Summarises(rows, s)
    ensures SnapshotOf(raw, s)
  {
    StampLine(raw, rows, at, s.url, s.firstSeen);
    StampLine(raw, rows, at, s.url, s.lastSeen);
    FirstLine(raw, rows, at, s.url);
    forall n: nat | Sights(raw, n, s.url)
      ensures NotAfter(s.firstSeen, raw[n][0]) && NotAfter(raw[n][0], s.lastSeen)
    {
      var i :| 0 <= i < |at| && at[i] == n;
      assert rows[i] in rows && raw[n][0] in Stamps(rows, s.url);
      StrLeByPosition(s.firstSeen, raw[n][0]);
      StrLeByPosition(raw[n][0], s.lastSeen);
    }
  }

  lemma StampLine(raw: seq<seq<string>>, rows: seq<Row>, at: seq<nat>, url: string, ts: string)
    requires UsableAt(raw, rows, at) && ts in Stamps(rows, url)
    ensures exists n: nat :: Sights(raw, n, url) && raw[n][0] == ts
  {
    var r :| r in rows && r.url == url && r.timestamp == ts;
    var i :| 0 <= i < |rows| && rows[i] == r;
    assert Sights(raw, at[i], url);
  }

  /** Two snapshots first seen at the same moment keep their order through the sort. */
  lemma {:induction false} AtPlaces(out: seq<Snapshot>, i: nat, j: nat) returns (p: nat, q: nat)
    requires i < j < |out| && out[i].firstSeen == out[j].firstSeen
    ensures var tied := At(out, out[i].firstSeen); p < q < |tied| && tied[p] == out[i] && tied[q] == out[j]
  {
    var ts := out[i].firstSeen;
    if i > 0 {
      var p', q' := AtPlaces(out[1..], i - 1, j - 1);
      var shift := if out[0].firstSeen == ts then 1 else 0;
      p, q := p' + shift, q' + shift;
    } else {
      p := 0;
      q := AtPlace(out[1..], j - 1);
      q := q + 1;
    }
  }

  lemma {:induction false} AtPlace(out: seq<Snapshot>, j: nat) returns (q: nat)
    requires j < |out|
    ensures var tied := At(out, out[j].firstSeen); q < |tied| && tied[q] == out[j]
  {
    if j > 0 {
      q := AtPlace(out[1..], j - 1);
      q := q + if out[0].firstSeen == out[j].firstSeen then 1 else 0;
    } else {
      q := 0;
    }
  }

  lemma {:induction false} AtFrom(out: seq<Snapshot>, ts: string, p: nat)
    requires p < |At(out, ts)|
    ensures exists i :: 0 <= i < |out| && out[i] == At(out, ts)[p]
  {
    var here := if out[0].firstSeen == ts then 1 else 0;
    if p >= here {
      AtFrom(out[1..], ts, p - here);
      var i :| 0 <= i < |out[1..]| && out[1..][i] == At(out[1..], ts)[p - here];
      assert out[i + 1] == At(out, ts)[p];
    }
  }

  lemma {:induction false} TiedByAppearance(rows: seq<Row>, out: seq<Snapshot>, ts: string)
    requires ByAppearance(rows, out)
    ensures ByAppearance(rows, At(out, ts))
  {
    if out != [] {
      TiedByAppearance(rows, out[1..], ts);
      var rest := At(out[1..], ts);
      forall q | 0 <= q < |rest| ensures FirstIndex(rows, out[0].url) < FirstIndex(rows, rest[q].url) {
        AtFrom(out[1..], ts, q);
      }
    }
  }

  lemma OrderByCell(raw: seq<seq<string>>, at: seq<nat>, listed: seq<Snapshot>, out: seq<Snapshot>)
    requires UsableAt(raw, Usable(raw), at) && Collapses(Usable(raw), out)
    requires ByAppearance(Usable(raw), listed) && out == SortByFirst(listed)
    ensures InOrder(raw, out)
  {
    var rows := Usable(raw);
    hide Usable;
    hide UsableAt;
    hide SortByFirst;
    hide SightsFirst;
    forall i, j | 0 <= i < j < |out|
      ensures NotAfter(out[i].firstSeen, out[j].firstSeen)
      ensures out[i].firstSeen == out[j].firstSeen ==> SightedBefore(raw, out[i].url, out[j].url)
    {
      SortIsStable(listed, out[i].firstSeen);
      if out[i].firstSeen == out[j].firstSeen {
        var p, q := AtPlaces(out, i, j);
        TiedByAppearance(rows, listed, out[i].firstSeen);
        assert out[i] in out && out[j] in out;
        assert Summarises(rows, out[i]) && Summarises(rows, out[j]);
        FirstLine(raw, rows, at, out[i].url);
        FirstLine(raw, rows, at, out[j].url);
        LinesAscend(raw, rows, at, FirstIndex(rows, out[i].url), FirstIndex(rows, out[j].url));
      }
    }
  }

  lemma LinesAscend(raw: seq<seq<string>>, rows: seq<Row>, at: seq<nat>, i: nat, j: nat)
    requires UsableAt(raw, rows, at) && i < j < |rows|
    ensures |at| == |rows| && at[i] < at[j]
  {
  }

  lemma SnapshotsByCell(raw: seq<seq<string>>, at: seq<nat>, out: seq<Snapshot>)
    requires UsableAt(raw, Usable(raw), at) && Collapses(Usable(raw), out)
    ensures SnapshotsOf(raw, out)
  {
    var rows := Usable(raw);
    hide Usable;
    forall s | s in out ensures SnapshotOf(raw, s) {
      SummaryByCell(raw, rows, at, s);
    }
    forall n: nat, url | Sights(raw, n, url) ensures url in SnapUrls(out) {
      var i :| 0 <= i < |at| && at[i] == n;
      assert rows[i] in rows && rows[i].url == url;
    }
  }

  /** `_extract_snapshots` */
  method ExtractSnapshots(raw: seq<seq<string>>) returns (out: seq<Snapshot>)
    ensures SnapshotsOf(raw, out) && InOrder(raw, out)
    ensures Collapses(Usable(raw), out) && ByFirst(out)
    ensures exists listed :: Collapses(Usable(raw), listed) && ByAppearance(Usable(raw), listed)
                             && out == SortByFirst(listed)
  {
    hide *;
    hide Usable;
    var byUrl: map<string, Seen> := map[];
    var order: seq<string> := [];
    EmptyDict(raw);
    for i := 0 to |raw|
      invariant DictOk(Usable(raw[..i]), order, byUrl)
    {
      var cells := raw[i];
      UsableNext(raw, i);
      if |cells| < 3 || cells[1] == "" {
        continue;
      }
      order, byUrl := Note(order, byUrl, Row(cells[0], cells[1], cells[2]), Usable(raw[..i]));
    }
    assert raw[..|raw|] == raw;
    DictLists(Usable(raw), order, byUrl);
    ghost var listed := Listed(order, byUrl);
    out := SortByFirst(Listed(order, byUrl));
    SortIsStable(listed, "");
    CollapsesPermuted(Usable(raw), listed, out);
    ghost var at := UsableLines(raw);
    SnapshotsByCell(raw, at, out);
    OrderByCell(raw, at, listed, out);
  }

  lemma EmptyDict(raw: seq<seq<string>>)
    ensures DictOk(Usable(raw[..0]), [], map[])
  {
    assert raw[..0] == [] && Listed([], map[]) == [];
  }

  lemma UsableNext(raw: seq<seq<string>>, i: nat)
    requires i < |raw|
    ensures Usable(raw[..i + 1]) ==
            if |raw[i]| < 3 || raw[i][1] == "" then Usable(raw[..i])
            else Usable(raw[..i]) + [Row(raw[i][0], raw[i][1], raw[i][2])]
  {
    assert raw[..i + 1][..i] == raw[..i];
    assert Usable(raw[..i]) + [] == Usable(raw[..i]);
  }

  lemma DictLists(rows: seq<Row>, order: seq<string>, byUrl: map<string, Seen>)
    requires DictOk(rows, order, byUrl)
    ensures forall u :: u in order ==> u in byUrl
    ensures Collapses(rows, Listed(order, byUrl)) && ByAppearance(rows, Listed(order, byUrl))
  {
  }

  lemma CollapsesPermuted(rows: seq<Row>, a: seq<Snapshot>, b: seq<Snapshot>)
    requires Collapses(rows, a) && multiset(a) == multiset(b)
    ensures Collapses(rows, b)
  {
    hide Summarises;
    forall s ensures s in a <==> s in b {
      assert s in a <==> s in multiset(a);
      assert s in b <==> s in multiset(b);
    }
    assert SnapUrls(a) == SnapUrls(b);
    DistinctPermuted(a, b);
  }

  lemma DistinctPermuted(a: seq<Snapshot>, b: seq<Snapshot>)
    requires DistinctUrls(a) && multiset(a) == multiset(b)
    ensures DistinctUrls(b)
  {
    forall i, j | 0 <= i < j < |b| ensures b[i].url != b[j].url {
      if b[i].url == b[j].url {
        assert b[i] in multiset(b) && b[j] in multiset(b);
        assert b[i] in a && b[j] in a;
        assert b[i] == b[j];
        assert b == b[..j] + b[j..] && b[i] in b[..j] && b[j] in b[j..];
        assert multiset(b)[b[i]] >= 2;
        DistinctOnce(a, b[i]);
      }
    }
  }

  lemma {:induction false} DistinctOnce(a: seq<Snapshot>, s: Snapshot)
    requires DistinctUrls(a)
    ensures multiset(a)[s] <= 1
  {
    if a != [] {
      assert a == [a[0]] + a[1..];
      DistinctOnce(a[1..], s);
      if s == a[0] {
        assert a[0] !in a[1..];
      }
    }
  }

  /** Permuting the rows keeps every URL with its first and last sighting; only a status, taken from
      the first row, and the order of ties can change. */
  lemma PermutationKeepsSpans(rows: seq<Row>, rows': seq<Row>, out: seq<Snapshot>, out': seq<Snapshot>, s: Snapshot)
    requires multiset(rows) == multiset(rows') && Collapses(rows, out) && Collapses(rows', out') && s in out
    ensures exists s' :: s' in out' && s'.url == s.url && s'.firstSeen == s.firstSeen && s'.lastSeen == s.lastSeen
  {
    forall r ensures r in rows <==> r in rows' {
      assert r in rows <==> r in multiset(rows);
      assert r in rows' <==> r in multiset(rows');
    }
    assert Urls(rows) == Urls(rows') && Stamps(rows, s.url) == Stamps(rows', s.url);
    assert s.url in SnapUrls(out');
    var s' :| s' in out' && s'.url == s.url;
    assert Summarises(rows, s) && Summarises(rows', s');
    StrLeTotal(s.firstSeen, s'.firstSeen);
    StrLeTotal(s.lastSeen, s'.lastSeen);
  }

  // ---------- What a permutation of the rows leaves ----------

  /** A snapshot without its status. */
  datatype Span = Span(url: string, firstSeen: string, lastSeen: string)

  function SpansOf(out: seq<Snapshot>): seq<Span> {
    seq(|out|, i requires 0 <= i < |out| => Span(out[i].url, out[i].firstSeen, out[i].lastSeen))
  }

  function FirstsOf(spans: seq<Span>): seq<string> {
    seq(|spans|, i requires 0 <= i < |spans| => spans[i].firstSeen)
  }

  lemma SpanFound(rows: seq<Row>, rows': seq<Row>, out: seq<Snapshot>, out': seq<Snapshot>, x: Span)
    requires multiset(rows) == multiset(rows') && Collapses(rows, out) && Collapses(rows', out')
    requires x in SpansOf(out)
    ensures x in SpansOf(out')
  {
    hide Summarises;
    var i :| 0 <= i < |out| && SpansOf(out)[i] == x;
    assert out[i] in out;
    PermutationKeepsSpans(rows, rows', out, out', out[i]);
    var s' :| s' in out' && s'.url == x.url && s'.firstSeen == x.firstSeen && s'.lastSeen == x.lastSeen;
    var j :| 0 <= j < |out'| && out'[j] == s';
    assert SpansOf(out')[j] == x;
  }

  predicate DistinctSpans(spans: seq<Span>) {
    forall i, j :: 0 <= i < j < |spans| ==> spans[i] != spans[j]
  }

  lemma {:induction false} SpanOnce(spans: seq<Span>, x: Span)
    requires DistinctSpans(spans)
    ensures multiset(spans)[x] == if x in spans then 1 else 0
  {
    if spans != [] {
      assert spans == [spans[0]] + spans[1..];
      assert spans[0] !in spans[1..];
      SpanOnce(spans[1..], x);
    }
  }

  function Without<T>(xs: seq<T>, j: nat): seq<T>
    requires j < |xs|
  {
    xs[..j] + xs[j + 1..]
  }

  lemma Removed<T>(xs: seq<T>, j: nat)
    requires j < |xs|
    ensures multiset(xs) == multiset(Without(xs, j)) + multiset{xs[j]}
    ensures multiset(Without(xs, j)) == multiset(xs) - multiset{xs[j]}
  {
    assert xs == xs[..j] + [xs[j]] + xs[j + 1..];
  }

  lemma {:induction false} SameFirsts(a: seq<Span>, b: seq<Span>)
    requires multiset(a) == multiset(b)
    ensures multiset(FirstsOf(a)) == multiset(FirstsOf(b))
    decreases |a|
  {
    if a == [] {
      assert |multiset(b)| == |b|;
    } else {
      assert a[0] in multiset(b);
      var j :| 0 <= j < |b| && b[j] == a[0];
      Removed(a, 0);
      Removed(b, j);
      FirstsRemoved(a, 0);
      FirstsRemoved(b, j);
      hide Without;
      hide FirstsOf;
      assert |Without(a, 0)| == |multiset(Without(a, 0))| == |multiset(a)| - 1 == |a| - 1;
      SameFirsts(Without(a, 0), Without(b, j));
    }
  }

  lemma FirstsRemoved(a: seq<Span>, j: nat)
    requires j < |a|
    ensures multiset(FirstsOf(a)) == multiset(FirstsOf(Without(a, j))) + multiset{a[j].firstSeen}
  {
    Removed(FirstsOf(a), j);
    assert FirstsOf(Without(a, j)) == Without(FirstsOf(a), j);
  }

  predicate SortedStrings(a: seq<string>) {
    forall i, j :: 0 <= i < j < |a| ==> StrLe(a[i], a[j])
  }

  lemma SortedHeads(a: seq<string>, b: seq<string>)
    requires SortedStrings(a) && SortedStrings(b) && a != [] && a[0] in b
    ensures StrLe(b[0], a[0])
  {
    var j :| 0 <= j < |b| && b[j] == a[0];
    StrLeTotal(b[0], b[0]);
  }

  lemma TailSorted(a: seq<string>)
    requires SortedStrings(a) && a != []
    ensures SortedStrings(a[1..])
  {
  }

  lemma SameHead(a: seq<string>, b: seq<string>)
    requires SortedStrings(a) && SortedStrings(b) && multiset(a) == multiset(b) && a != [] && b != []
    ensures a[0] == b[0] && multiset(a[1..]) == multiset(b[1..])
    ensures SortedStrings(a[1..]) && SortedStrings(b[1..])
  {
    assert a[0] in multiset(b) && b[0] in multiset(a);
    SortedHeads(a, b);
    SortedHeads(b, a);
    StrLeTotal(a[0], b[0]);
    TailSorted(a);
    TailSorted(b);
    hide StrLe;
    hide SortedStrings;
    Removed(a, 0);
    Removed(b, 0);
    assert Without(a, 0) == a[1..] && Without(b, 0) == b[1..];
  }

  lemma {:induction false} SortedSame(a: seq<string>, b: seq<string>)
    requires SortedStrings(a) && SortedStrings(b) && multiset(a) == multiset(b)
    ensures a == b
  {
    assert |a| == |multiset(a)| == |multiset(b)| == |b|;
    if a != [] {
      SameHead(a, b);
      hide SortedStrings;
      SortedSame(a[1..], b[1..]);
      assert a == [a[0]] + a[1..] && b == [b[0]] + b[1..];
    }
  }

  /** Permuting the rows changes statuses and the order of ties and nothing else: the two lists hold the
      same spans, and their first sightings read the same from end to end. */
  lemma PermutationKeepsOrder(rows: seq<Row>, rows': seq<Row>, out: seq<Snapshot>, out': seq<Snapshot>)
    requires multiset(rows) == multiset(rows') && Collapses(rows, out) && Collapses(rows', out')
    requires ByFirst(out) && ByFirst(out')
    ensures multiset(SpansOf(out)) == multiset(SpansOf(out'))
    ensures FirstsOf(SpansOf(out)) == FirstsOf(SpansOf(out'))
  {
    hide Summarises;
    var a, b := SpansOf(out), SpansOf(out');
    assert DistinctSpans(a) && DistinctSpans(b);
    forall x ensures multiset(a)[x] == multiset(b)[x] {
      SpanOnce(a, x);
      SpanOnce(b, x);
      if x in a {
        SpanFound(rows, rows', out, out', x);
      }
      if x in b {
        SpanFound(rows', rows, out', out, x);
      }
    }
    SameFirsts(a, b);
    SortedSame(FirstsOf(a), FirstsOf(b));
  }
}
