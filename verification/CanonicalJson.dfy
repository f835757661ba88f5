/** `canonical_json_bytes`: sorted keys at every depth, no blanks, UTF-8, and why equal bytes mean equal
    values. The reader for JSON text is in `JsonReader`. */
module CanonicalJson {
  import opened Prelude
  import opened Values
  import opened Json
  import opened StringOrder
  import JsonReader
  import Utf8

  // ---------- Sorting entries by key ----------

  function Insert(e: Entry, es: seq<Entry>): seq<Entry> {
    if es == [] then [e]
    else if StrLe(e.key, es[0].key) then [e] + es
    else [es[0]] + Insert(e, es[1..])
  }

  function Sort(es: seq<Entry>): seq<Entry> {
    if es == [] then [] else Insert(es[0], Sort(es[1..]))
  }

  predicate Sorted(es: seq<Entry>) {
    forall i, j :: 0 <= i < j < |es| ==> StrLe(es[i].key, es[j].key)
  }

  lemma {:induction false} InsertSorts(e: Entry, es: seq<Entry>)
    requires Sorted(es)
    ensures Sorted(Insert(e, es)) && multiset(Insert(e, es)) == multiset(es) + multiset{e}
  {
    if es == [] {
    } else if StrLe(e.key, es[0].key) {
      forall j | 0 <= j < |es| ensures StrLe(e.key, es[j].key) {
        if j > 0 {
          StrLeTransitive(e.key, es[0].key, es[j].key);
        }
      }
    } else {
      StrLeTotal(e.key, es[0].key);
      InsertSorts(e, es[1..]);
      var rest := Insert(e, es[1..]);
      assert es == [es[0]] + es[1..];
      forall j | 0 <= j < |rest| ensures StrLe(es[0].key, rest[j].key) {
        assert rest[j] in multiset(rest);
        if rest[j] != e {
          assert rest[j] in es[1..];
        }
      }
    }
  }

  lemma {:induction false} SortSorts(es: seq<Entry>)
    ensures Sorted(Sort(es)) && multiset(Sort(es)) == multiset(es)
  {
    if es != [] {
      SortSorts(es[1..]);
      InsertSorts(es[0], Sort(es[1..]));
      assert es == [es[0]] + es[1..];
    }
  }

  /** The first of two sorted listings of the same entries is the same. */
  lemma SortedHead(a: seq<Entry>, b: seq<Entry>)
    requires Sorted(a) && Sorted(b) && DistinctKeys(a) && a != [] && b != []
    requires a[0] in b && b[0] in a
    ensures a[0] == b[0]
  {
    var i :| 0 <= i < |b| && b[i] == a[0];
    var j :| 0 <= j < |a| && a[j] == b[0];
    StrLeTotal(a[0].key, b[0].key);
    StrLeTotal(a[0].key, a[0].key);
    StrLeTotal(b[0].key, b[0].key);
    assert StrLe(b[0].key, b[i].key);
    assert StrLe(a[0].key, a[j].key);
  }

  /** A set of entries with distinct keys has one sorted listing. */
  lemma {:induction false} SortedUnique(a: seq<Entry>, b: seq<Entry>)
    requires Sorted(a) && Sorted(b) && multiset(a) == multiset(b) && DistinctKeys(a)
    ensures a == b
  {
    hide Sorted;
    hide DistinctKeys;
    assert |a| == |multiset(a)| == |multiset(b)| == |b|;
    if a != [] {
      assert a[0] in multiset(b) && b[0] in multiset(a);
      SortedHead(a, b);
      assert a == [a[0]] + a[1..] && b == [b[0]] + b[1..];
      assert multiset(a[1..]) == multiset(a) - multiset{a[0]};
      assert multiset(b[1..]) == multiset(b) - multiset{b[0]};
      TailSorted(a);
      TailSorted(b);
      SortedUnique(a[1..], b[1..]);
    }
  }

  /** Each key is a prefix of the next, or has the smaller character where the two first differ. */
  ghost predicate Ascending(es: seq<Entry>) {
    forall i, j :: 0 <= i < j < |es| ==> NotAfter(es[i].key, es[j].key)
  }

  lemma SortedIsAscending(es: seq<Entry>)
    ensures Sorted(es) <==> Ascending(es)
  {
    forall i, j | 0 <= i < j < |es| ensures StrLe(es[i].key, es[j].key) <==> NotAfter(es[i].key, es[j].key) {
      StrLeByPosition(es[i].key, es[j].key);
    }
  }

  /** Sorting lists the entries with ascending keys, and a dict has no other such listing. */
  lemma OneAscendingListing(es: seq<Entry>, a: seq<Entry>)
    requires DistinctKeys(es)
    ensures a == Sort(es) <==> Ascending(a) && multiset(a) == multiset(es)
  {
    SortSorts(es);
    DistinctSorted(es);
    SortedIsAscending(Sort(es));
    SortedIsAscending(a);
    if Ascending(a) && multiset(a) == multiset(es) {
      SortedUnique(Sort(es), a);
    }
  }

  lemma TailSorted(a: seq<Entry>)
    requires Sorted(a) && a != []
    ensures Sorted(a[1..])
    ensures DistinctKeys(a) ==> DistinctKeys(a[1..])
  {
  }

  /** Entries with distinct keys on both sides and the same members sort to the same sequence. */
  lemma SortSame(a: seq<Entry>, b: seq<Entry>)
    requires DistinctKeys(a) && DistinctKeys(b)
    requires forall e :: e in a <==> e in b
    ensures Sort(a) == Sort(b)
  {
    SortSorts(a);
    SortSorts(b);
    DistinctOnce(a);
    DistinctOnce(b);
    assert multiset(a) == multiset(b) by {
      forall e ensures multiset(a)[e] == multiset(b)[e] {
        assert e in a <==> e in multiset(a);
        assert e in b <==> e in multiset(b);
      }
    }
    DistinctSorted(a);
    SortedUnique(Sort(a), Sort(b));
  }

  lemma {:induction false} DistinctOnce(a: seq<Entry>)
    requires DistinctKeys(a)
    ensures forall e :: multiset(a)[e] <= 1
  {
    if a != [] {
      DistinctOnce(a[1..]);
      assert a == [a[0]] + a[1..];
      assert a[0] !in a[1..];
    }
  }

  lemma DistinctSorted(a: seq<Entry>)
    requires DistinctKeys(a)
    ensures DistinctKeys(Sort(a))
  {
    SortSorts(a);
    DistinctOnce(a);
    var s := Sort(a);
    forall i, j | 0 <= i < j < |s| ensures s[i].key != s[j].key {
      assert s[i] in multiset(s) && s[j] in multiset(s);
      assert s[i] in a && s[j] in a;
      if s[i] == s[j] {
        TwiceCounts(s, i, j);
      }
    }
  }

  lemma TwiceCounts(s: seq<Entry>, i: nat, j: nat)
    requires i < j < |s| && s[i] == s[j]
    ensures multiset(s)[s[i]] >= 2
  {
    assert s == s[..j] + s[j..];
    assert s[i] in s[..j] && s[j] in s[j..];
    assert multiset(s) == multiset(s[..j]) + multiset(s[j..]);
  }

  // ---------- The canonical form ----------

  function Canon(v: Value): Value
    decreases v, 0
  {
    match v
    case VMap(es) => VMap(Sort(CanonEntries(es)))
    case VList(items) => VList(CanonItems(items))
    case _ => v
  }

  function CanonEntries(es: seq<Entry>): (r: seq<Entry>)
    ensures |r| == |es| && forall i :: 0 <= i < |es| ==> r[i] == Entry(es[i].key, Canon(es[i].value))
    decreases es, 0
  {
    if es == [] then [] else [Entry(es[0].key, Canon(es[0].value))] + CanonEntries(es[1..])
  }

  function CanonItems(items: seq<Value>): (r: seq<Value>)
    ensures |r| == |items| && forall i :: 0 <= i < |items| ==> r[i] == Canon(items[i])
    decreases items, 0
  {
    if items == [] then [] else [Canon(items[0])] + CanonItems(items[1..])
  }

  function CanonicalText(v: Value): string {
    Dump(Canon(v), CANONICAL_STYLE)
  }

  /** `canonical_json_bytes` */
  function CanonicalBytes(v: Value): Bytes {
    Utf8.Encode(CanonicalText(v))
  }

  // ---------- Equality of values ----------

  /** A Python value: every dict at every depth holds each key once. */
  predicate WellFormed(v: Value)
    decreases v
  {
    match v
    case VMap(es) => DistinctKeys(es) && forall i :: 0 <= i < |es| ==> WellFormed(es[i].value)
    case VList(items) => forall i :: 0 <= i < |items| ==> WellFormed(items[i])
    case _ => true
  }

  function KeySet(es: seq<Entry>): set<string> {
    set i | 0 <= i < |es| :: es[i].key
  }

  /** Equal as JSON values: dicts compare by key, whatever their insertion order; 1, 1.0 and true differ. */
  predicate Same(v: Value, w: Value)
    decreases v
  {
    match v
    case VMap(es) =>
      && w.VMap? && KeySet(es) == KeySet(w.entries)
      && forall i, j | 0 <= i < |es| && 0 <= j < |w.entries| ::
           es[i].key == w.entries[j].key ==> Same(es[i].value, w.entries[j].value)
    case VList(items) =>
      w.VList? && |items| == |w.items| && forall i :: 0 <= i < |items| ==> Same(items[i], w.items[i])
    case _ => v == w
  }

  lemma CanonKeepsKeys(es: seq<Entry>)
    requires DistinctKeys(es)
    ensures DistinctKeys(CanonEntries(es))
  {
  }

  /** The same keys, with the same canonical value under each. */
  ghost predicate CanonMatch(es: seq<Entry>, fs: seq<Entry>) {
    && KeySet(es) == KeySet(fs)
    && forall i, j | 0 <= i < |es| && 0 <= j < |fs| ::
         es[i].key == fs[j].key ==> Canon(es[i].value) == Canon(fs[j].value)
  }

  lemma MatchMembers(es: seq<Entry>, fs: seq<Entry>, e: Entry)
    requires CanonMatch(es, fs)
    ensures e in CanonEntries(es) ==> e in CanonEntries(fs)
    ensures e in CanonEntries(fs) ==> e in CanonEntries(es)
  {
    hide Canon;
    var a, b := CanonEntries(es), CanonEntries(fs);
    if e in a {
      var i :| 0 <= i < |a| && a[i] == e;
      assert es[i].key in KeySet(fs);
      var j :| 0 <= j < |fs| && fs[j].key == es[i].key;
      assert b[j] == e;
    }
    if e in b {
      var j :| 0 <= j < |b| && b[j] == e;
      assert fs[j].key in KeySet(es);
      var i :| 0 <= i < |es| && es[i].key == fs[j].key;
      assert a[i] == e;
    }
  }

  lemma EntriesSort(es: seq<Entry>, fs: seq<Entry>)
    requires DistinctKeys(es) && DistinctKeys(fs) && CanonMatch(es, fs)
    ensures Sort(CanonEntries(es)) == Sort(CanonEntries(fs))
  {
    hide Canon;
    hide Sort;
    hide CanonEntries;
    forall e ensures e in CanonEntries(es) <==> e in CanonEntries(fs) {
      MatchMembers(es, fs, e);
    }
    CanonKeepsKeys(es);
    CanonKeepsKeys(fs);
    SortSame(CanonEntries(es), CanonEntries(fs));
  }

  lemma SortMembers(a: seq<Entry>, e: Entry)
    ensures e in Sort(a) <==> e in a
  {
    SortSorts(a);
    assert e in Sort(a) <==> e in multiset(Sort(a));
    assert e in a <==> e in multiset(a);
  }

  /** From equal sorted listings, an entry on one side is found on the other. */
  lemma FindEntry(es: seq<Entry>, fs: seq<Entry>, i: nat) returns (j: nat)
    requires Sort(CanonEntries(es)) == Sort(CanonEntries(fs)) && i < |es|
    ensures j < |fs| && es[i].key == fs[j].key && Canon(es[i].value) == Canon(fs[j].value)
  {
    hide Canon;
    hide Sort;
    var a, b := CanonEntries(es), CanonEntries(fs);
    SortMembers(a, a[i]);
    SortMembers(b, a[i]);
    j :| 0 <= j < |b| && b[j] == a[i];
  }

  lemma SortedMatch(es: seq<Entry>, fs: seq<Entry>)
    requires DistinctKeys(fs) && Sort(CanonEntries(es)) == Sort(CanonEntries(fs))
    ensures CanonMatch(es, fs)
  {
    hide Canon;
    hide Sort;
    forall i, j | 0 <= i < |es| && 0 <= j < |fs| && es[i].key == fs[j].key
      ensures Canon(es[i].value) == Canon(fs[j].value)
    {
      var j' := FindEntry(es, fs, i);
    }
    forall k | k in KeySet(es) ensures k in KeySet(fs) {
      var i :| 0 <= i < |es| && es[i].key == k;
      var j := FindEntry(es, fs, i);
    }
    forall k | k in KeySet(fs) ensures k in KeySet(es) {
      var j :| 0 <= j < |fs| && fs[j].key == k;
      var i := FindEntry(fs, es, j);
    }
  }

  /** Insertion order never shows: equal values have the same canonical form. */
  lemma {:induction false} SameCanon(v: Value, w: Value)
    requires WellFormed(v) && WellFormed(w) && Same(v, w)
    ensures Canon(v) == Canon(w)
    decreases v
  {
    match v {
      case VMap(es) =>
        var fs := w.entries;
        forall i, j | 0 <= i < |es| && 0 <= j < |fs| && es[i].key == fs[j].key
          ensures Canon(es[i].value) == Canon(fs[j].value)
        {
          SameCanon(es[i].value, fs[j].value);
        }
        EntriesSort(es, fs);
      case VList(items) =>
        forall i | 0 <= i < |items| ensures Canon(items[i]) == Canon(w.items[i]) {
          SameCanon(items[i], w.items[i]);
        }
        assert CanonItems(items) == CanonItems(w.items);
      case _ =>
    }
  }

  /** The canonical form keeps everything else. */
  lemma {:induction false} CanonSame(v: Value, w: Value)
    requires WellFormed(w) && Canon(v) == Canon(w)
    ensures Same(v, w)
    decreases v
  {
    match v {
      case VMap(es) =>
        var fs := w.entries;
        SortedMatch(es, fs);
        forall i, j | 0 <= i < |es| && 0 <= j < |fs| && es[i].key == fs[j].key
          ensures Same(es[i].value, fs[j].value)
        {
          CanonSame(es[i].value, fs[j].value);
        }
      case VList(items) =>
        forall i | 0 <= i < |items| ensures Same(items[i], w.items[i]) {
          assert CanonItems(items)[i] == CanonItems(w.items)[i];
          CanonSame(items[i], w.items[i]);
        }
      case _ =>
    }
  }

  lemma {:induction false} EntriesPrintable(es: seq<Entry>)
    ensures JsonReader.PrintableEntries(es) <==> forall i :: 0 <= i < |es| ==> JsonReader.Printable(es[i].value)
  {
    if es != [] {
      EntriesPrintable(es[1..]);
      assert es == [es[0]] + es[1..];
    }
  }

  lemma {:induction false} ItemsPrintable(items: seq<Value>)
    ensures JsonReader.PrintableItems(items) <==> forall i :: 0 <= i < |items| ==> JsonReader.Printable(items[i])
  {
    if items != [] {
      ItemsPrintable(items[1..]);
      assert items == [items[0]] + items[1..];
    }
  }

  lemma {:induction false} CanonPrintable(v: Value)
    requires JsonReader.Printable(v)
    ensures JsonReader.Printable(Canon(v))
    decreases v
  {
    match v {
      case VMap(es) =>
        var a := CanonEntries(es);
        EntriesPrintable(es);
        forall i | 0 <= i < |es| ensures JsonReader.Printable(a[i].value) {
          CanonPrintable(es[i].value);
        }
        forall i | 0 <= i < |Sort(a)| ensures JsonReader.Printable(Sort(a)[i].value) {
          SortMembers(a, Sort(a)[i]);
        }
        EntriesPrintable(Sort(a));
      case VList(items) =>
        ItemsPrintable(items);
        forall i | 0 <= i < |items| ensures JsonReader.Printable(CanonItems(items)[i]) {
          CanonPrintable(items[i]);
        }
        ItemsPrintable(CanonItems(items));
      case _ =>
    }
  }

  /** Equal bytes mean equal values, and equal values, whatever the insertion order of their keys at
      any depth, give equal bytes. */
  lemma BytesEqualIff(v: Value, w: Value)
    requires WellFormed(v) && WellFormed(w) && JsonReader.Printable(v) && JsonReader.Printable(w)
    ensures CanonicalBytes(v) == CanonicalBytes(w) <==> Same(v, w)
  {
    if Same(v, w) {
      SameCanon(v, w);
    }
    if CanonicalBytes(v) == CanonicalBytes(w) {
      Utf8.EncodeInjective(CanonicalText(v), CanonicalText(w));
      CanonPrintable(v);
      CanonPrintable(w);
      JsonReader.JsonRoundTrip(Canon(v));
      JsonReader.JsonRoundTrip(Canon(w));
      CanonSame(v, w);
    }
  }

  /** What an auditor reads back from the stored text is the value, with its keys ascending at every depth. */
  lemma CanonicalTextReads(v: Value)
    requires WellFormed(v) && JsonReader.Printable(v)
    ensures JsonReader.ReadJson(CanonicalText(v)) == Some((Canon(v), ""))
    ensures Same(v, Canon(v)) && KeysAscend(Canon(v)) && Canon(Canon(v)) == Canon(v)
  {
    CanonPrintable(v);
    JsonReader.JsonRoundTrip(Canon(v));
    CanonIdempotent(v);
    CanonAscends(v);
    CanonWellFormed(v);
    CanonSame(v, Canon(v));
  }

  /** At every depth, each key stands before the next: it is a proper prefix of it, or has the smaller
      character where the two first differ. */
  ghost predicate KeysAscend(v: Value)
    decreases v
  {
    match v
    case VMap(es) =>
      && (forall i, j :: 0 <= i < j < |es| ==> es[i].key != es[j].key && NotAfter(es[i].key, es[j].key))
      && forall i :: 0 <= i < |es| ==> KeysAscend(es[i].value)
    case VList(items) => forall i :: 0 <= i < |items| ==> KeysAscend(items[i])
    case _ => true
  }

  lemma {:induction false} CanonAscends(v: Value)
    requires WellFormed(v)
    ensures KeysAscend(Canon(v))
    decreases v
  {
    match v {
      case VMap(es) =>
        var a := CanonEntries(es);
        var s := Sort(a);
        CanonKeepsKeys(es);
        SortSorts(a);
        DistinctSorted(a);
        forall i, j | 0 <= i < j < |s| ensures s[i].key != s[j].key && NotAfter(s[i].key, s[j].key) {
          StrLeByPosition(s[i].key, s[j].key);
        }
        forall i | 0 <= i < |s| ensures KeysAscend(s[i].value) {
          SortMembers(a, s[i]);
          var j :| 0 <= j < |a| && a[j] == s[i];
          CanonAscends(es[j].value);
        }
      case VList(items) =>
        forall i | 0 <= i < |items| ensures KeysAscend(CanonItems(items)[i]) {
          CanonAscends(items[i]);
        }
      case _ =>
    }
  }

  lemma {:induction false} CanonWellFormed(v: Value)
    requires WellFormed(v)
    ensures WellFormed(Canon(v))
    decreases v
  {
    match v {
      case VMap(es) =>
        var a := CanonEntries(es);
        CanonKeepsKeys(es);
        DistinctSorted(a);
        forall i | 0 <= i < |Sort(a)| ensures WellFormed(Sort(a)[i].value) {
          SortMembers(a, Sort(a)[i]);
          var j :| 0 <= j < |a| && a[j] == Sort(a)[i];
          CanonWellFormed(es[j].value);
        }
      case VList(items) =>
        forall i | 0 <= i < |items| ensures WellFormed(CanonItems(items)[i]) {
          CanonWellFormed(items[i]);
        }
      case _ =>
    }
  }

  /** For example: keys ascending, no blanks, and characters outside ASCII as they are; the text whose size
      the validator measures has blanks and escapes instead, and keeps the order of insertion. */
  lemma TextExample()
    ensures var v := VMap([Entry("b", VNull), Entry("a", VStr("é"))]);
            && CanonicalText(v) == "{\"a\":\"é\",\"b\":null}"
            && Dump(v, DEFAULT_STYLE) == "{\"b\": null, \"a\": \"\\u00e9\"}"
  {
    hide *;
    hide Dump;
    hide Canon;
    var a, b := Entry("a", VStr("é")), Entry("b", VNull);
    ExampleCanonical();
    ExampleMeasured();
    TwoEntries(a, b, CANONICAL_STYLE);
    TwoEntries(b, a, DEFAULT_STYLE);
    ExampleSorted();
    StylesAre();
    assert "\"a\":\"é\"" + "," + "\"b\":null" == "\"a\":\"é\",\"b\":null";
    assert "{" + "\"a\":\"é\",\"b\":null" + "}" == "{\"a\":\"é\",\"b\":null}";
    assert "\"b\": null" + ", " + "\"a\": \"\\u00e9\"" == "\"b\": null, \"a\": \"\\u00e9\"";
    assert "{" + "\"b\": null, \"a\": \"\\u00e9\"" + "}" == "{\"b\": null, \"a\": \"\\u00e9\"}";
    CanonicalTextIs(VMap([b, a]));
  }

  lemma CanonicalTextIs(v: Value)
    ensures CanonicalText(v) == Dump(Canon(v), CANONICAL_STYLE)
  {
  }

  lemma StylesAre()
    ensures CANONICAL_STYLE.itemSep == "," && DEFAULT_STYLE.itemSep == ", "
  {
  }

  lemma TwoEntries(a: Entry, b: Entry, st: Style)
    ensures Dump(VMap([a, b]), st) == "{" + (DumpEntry(a, st) + st.itemSep + DumpEntry(b, st)) + "}"
  {
    hide DumpEntry;
    assert [a, b][1..] == [b];
    assert DumpEntries([b], st) == DumpEntry(b, st);
  }

  lemma ExampleSorted()
    ensures Canon(VMap([Entry("b", VNull), Entry("a", VStr("é"))])) ==
            VMap([Entry("a", VStr("é")), Entry("b", VNull)])
  {
    var a, b := Entry("a", VStr("é")), Entry("b", VNull);
    assert [b, a][1..] == [a] && [a][1..] == [];
    assert CanonEntries([b, a]) == [b, a];
    assert Insert(a, []) == [a];
    assert Sort([a]) == [a];
    assert Insert(b, [a]) == [a] + Insert(b, []);
    assert Sort([b, a]) == [a, b];
  }

  lemma ExampleCanonical()
    ensures DumpEntry(Entry("a", VStr("é")), CANONICAL_STYLE) == "\"a\":\"é\""
    ensures DumpEntry(Entry("b", VNull), CANONICAL_STYLE) == "\"b\":null"
  {
    hide DumpEntry;
    hide Quote;
    CharQuoted('é', false, "é");
    EntryText('a', VStr("é"), CANONICAL_STYLE);
    EntryText('b', VNull, CANONICAL_STYLE);
  }

  lemma ExampleMeasured()
    ensures DumpEntry(Entry("a", VStr("é")), DEFAULT_STYLE) == "\"a\": \"\\u00e9\""
    ensures DumpEntry(Entry("b", VNull), DEFAULT_STYLE) == "\"b\": null"
  {
    hide DumpEntry;
    hide Quote;
    CharQuoted('é', true, "\\u00e9");
    EntryText('a', VStr("é"), DEFAULT_STYLE);
    EntryText('b', VNull, DEFAULT_STYLE);
  }

  lemma EntryText(k: char, v: Value, st: Style)
    requires EscapeChar(k, st.asciiOnly) == [k]
    ensures DumpEntry(Entry([k], v), st) == "\"" + [k] + "\"" + st.keySep + Dump(v, st)
  {
    CharQuoted(k, st.asciiOnly, [k]);
    hide Dump;
    hide Quote;
  }

  lemma CharQuoted(c: char, asciiOnly: bool, text: string)
    requires EscapeChar(c, asciiOnly) == text
    ensures Quote([c], asciiOnly) == "\"" + text + "\""
  {
    assert [c][1..] == [];
    assert EscapeAll([c], asciiOnly) == text + [];
  }

  lemma {:induction false} CanonIdempotent(v: Value)
    requires WellFormed(v)
    ensures Canon(Canon(v)) == Canon(v)
    decreases v
  {
    match v {
      case VMap(es) =>
        var a := CanonEntries(es);
        var s := Sort(a);
        CanonKeepsKeys(es);
        SortSorts(a);
        DistinctSorted(a);
        forall i | 0 <= i < |s| ensures Canon(s[i].value) == s[i].value {
          SortMembers(a, s[i]);
          var j :| 0 <= j < |a| && a[j] == s[i];
          CanonIdempotent(es[j].value);
        }
        assert CanonEntries(s) == s;
        SortSorts(s);
        SortedUnique(s, Sort(s));
      case VList(items) =>
        forall i | 0 <= i < |items| ensures Canon(Canon(items[i])) == Canon(items[i]) {
          CanonIdempotent(items[i]);
        }
        assert CanonItems(CanonItems(items)) == CanonItems(items);
      case _ =>
    }
  }

  /** `hash_json`: with a hash without collisions, equal digests mean equal values. */
  lemma DigestEqualIff(hash: Bytes -> string, v: Value, w: Value)
    requires WellFormed(v) && WellFormed(w) && JsonReader.Printable(v) && JsonReader.Printable(w)
    requires forall a, b :: hash(a) == hash(b) ==> a == b
    ensures hash(CanonicalBytes(v)) == hash(CanonicalBytes(w)) <==> Same(v, w)
  {
    BytesEqualIff(v, w);
  }
}
