/** What the attribute validator accepts, that everything accepted prints, and the statements the two
    mirrors send, from attribute values to the text PostgreSQL and AGE read back. */
module CypherTheorems {
  import opened Prelude
  import opened Values
  import opened Scanning
  import opened Validators
  import opened Cypher
  import opened DollarQuotes
  import Json

  // ---------- What is accepted ----------

  /** Nesting height: 0 for a scalar or an empty container, else one more than the highest child. */
  function Height(v: Value): nat
    decreases v, 0
  {
    match v
    case VMap(es) => HeightOfEntries(es)
    case VList(items) => HeightOfItems(items)
    case _ => 0
  }

  function HeightOfEntries(es: seq<Entry>): nat
    decreases es, 0
  {
    if es == [] then 0 else Max(1 + Height(es[0].value), HeightOfEntries(es[1..]))
  }

  function HeightOfItems(items: seq<Value>): nat
    decreases items, 0
  {
    if items == [] then 0 else Max(1 + Height(items[0]), HeightOfItems(items[1..]))
  }

  function Max(a: nat, b: nat): nat {
    if a >= b then a else b
  }

  predicate KeysLegal(v: Value)
    decreases v, 0
  {
    match v
    case VMap(es) => KeysLegalIn(es)
    case VList(items) => KeysLegalInItems(items)
    case _ => true
  }

  predicate KeysLegalIn(es: seq<Entry>)
    decreases es, 0
  {
    es == [] || (LegalKey(es[0].key) && KeysLegal(es[0].value) && KeysLegalIn(es[1..]))
  }

  predicate KeysLegalInItems(items: seq<Value>)
    decreases items, 0
  {
    items == [] || (KeysLegal(items[0]) && KeysLegalInItems(items[1..]))
  }

  lemma {:induction false} WalkExact(v: Value, depth: nat)
    ensures Walk(v, depth).None? <==> depth + Height(v) <= MAX_DEPTH && KeysLegal(v)
    decreases v, 0
  {
    match v {
      case VMap(es) => WalkEntriesExact(es, depth + 1);
      case VList(items) => WalkItemsExact(items, depth + 1);
      case _ =>
    }
  }

  lemma {:induction false} WalkEntriesExact(es: seq<Entry>, depth: nat)
    requires depth > 0
    ensures WalkEntries(es, depth).None? <==>
            (es != [] ==> depth - 1 + HeightOfEntries(es) <= MAX_DEPTH) && KeysLegalIn(es)
    decreases es, 0
  {
    if es != [] {
      WalkExact(es[0].value, depth);
      WalkEntriesExact(es[1..], depth);
    }
  }

  lemma {:induction false} WalkItemsExact(items: seq<Value>, depth: nat)
    requires depth > 0
    ensures WalkItems(items, depth).None? <==>
            (items != [] ==> depth - 1 + HeightOfItems(items) <= MAX_DEPTH) && KeysLegalInItems(items)
    decreases items, 0
  {
    if items != [] {
      WalkExact(items[0], depth);
      WalkItemsExact(items[1..], depth);
    }
  }

  /** The validator accepts exactly the values of height at most four, with legal keys at every depth
      and at most 65536 bytes of JSON. */
  lemma AcceptsExactly(v: Value)
    ensures Accepts(v) <==> Height(v) <= 4 && KeysLegal(v) && JsonSize(v) <= 65536
  {
    WalkExact(v, 0);
  }

  // ---------- Accepted values print ----------

  lemma {:induction false} PrintsIff(v: Value)
    requires NoLists(v)
    ensures Scalar(v).Ok? <==> KeysLegal(v)
    decreases v, 0
  {
    if v.VMap? {
      PartsPrintIff(v.entries);
    }
  }

  lemma {:induction false} PartsPrintIff(es: seq<Entry>)
    requires NoListsIn(es)
    ensures Parts(es).Ok? <==> KeysLegalIn(es)
    decreases es, 0
  {
    if es != [] {
      PrintsIff(es[0].value);
      PartsPrintIff(es[1..]);
    }
  }

  lemma {:induction false} EscapeSize(s: string)
    ensures |EscapeEach(s)| <= 2 * |s|
  {
    if s != [] {
      EscapeSize(s[1..]);
    }
  }

  /** Cypher text is at most twice the JSON text: only a quote doubles, and keys lose their quotes. */
  lemma {:induction false} PrintedSize(v: Value)
    requires NoLists(v) && Scalar(v).Ok?
    ensures |Scalar(v).value| <= 2 * |Json.Dump(v, Json.DEFAULT_STYLE)|
    decreases v, 0
  {
    match v {
      case VStr(s) =>
        EscapeIsOnePass(s);
        EscapeSize(s);
      case VMap(es) => PartsSize(es);
      case _ =>
    }
  }

  lemma {:induction false} PartsSize(es: seq<Entry>)
    requires NoListsIn(es) && Parts(es).Ok?
    ensures |Join(Parts(es).value)| <= 2 * |Json.DumpEntries(es, Json.DEFAULT_STYLE)|
    decreases es, 0
  {
    if es != [] {
      PrintedSize(es[0].value);
      PartsSize(es[1..]);
      var part := es[0].key + ": " + Scalar(es[0].value).value;
      var more := Parts(es[1..]).value;
      assert Parts(es).value == [part] + more && ([part] + more)[1..] == more;
      assert |part| <= 2 * |Json.DumpEntry(es[0], Json.DEFAULT_STYLE)|;
    }
  }

  /** The validator implies the printer: an accepted dict never makes the encoder fail, and its text
      has at most 131072 characters. */
  lemma AcceptedPrints(es: seq<Entry>)
    requires NoListsIn(es) && Accepts(VMap(es))
    ensures Props(es).Ok?
    ensures |Props(es).value| <= 2 * JsonSize(VMap(es)) <= 131072
  {
    AcceptsExactly(VMap(es));
    PrintsIff(VMap(es));
    PrintedSize(VMap(es));
  }

  /** Every float in the value prints as a number token, as Python's finite floats do. */
  predicate FiniteFloats(v: Value)
    decreases v, 0
  {
    match v
    case VFloat(token) => FloatToken(token)
    case VMap(es) => FiniteFloatsIn(es)
    case _ => true
  }

  predicate FiniteFloatsIn(es: seq<Entry>)
    decreases es, 0
  {
    es == [] || (FiniteFloats(es[0].value) && FiniteFloatsIn(es[1..]))
  }

  lemma {:induction false} LegalIsReadable(v: Value)
    requires NoLists(v) && KeysLegal(v) && FiniteFloats(v)
    ensures Readable(v)
    decreases v, 0
  {
    if v.VMap? {
      LegalEntriesReadable(v.entries);
    }
  }

  lemma {:induction false} LegalEntriesReadable(es: seq<Entry>)
    requires NoListsIn(es) && KeysLegalIn(es) && FiniteFloatsIn(es)
    ensures ReadableIn(es)
    decreases es, 0
  {
    if es != [] {
      LegalIsReadable(es[0].value);
      LegalEntriesReadable(es[1..]);
    }
  }

  /** From request to graph: an accepted dict is printed without error, and the printed text reads
      back as that dict. */
  lemma AcceptedRoundTrip(es: seq<Entry>)
    requires NoListsIn(es) && FiniteFloatsIn(es) && Accepts(VMap(es))
    ensures Props(es).Ok? && ReadValue(Props(es).value) == Some((VMap(es), ""))
  {
    AcceptsExactly(VMap(es));
    LegalEntriesReadable(es);
    CypherRoundTrip(es);
  }

  // ---------- The two statements ----------

  /** The property map of `upsert_vertex`, with confidence as the token Python prints. */
  function VertexProps(id: string, caseId: string, name: string, confidence: string, attrs: seq<Entry>): seq<Entry> {
    [Entry("id", VStr(id)), Entry("case_id", VStr(caseId)), Entry("label", VStr(name)),
     Entry("confidence", VFloat(confidence)), Entry("attrs", VMap(attrs))]
  }

  function VertexHead(etype: string, id: string): string {
    "MERGE (v:" + (etype + (" {id: '" + (id + "'}) SET v = ")))
  }

  /** The property map of `upsert_edge`. */
  function EdgeProps(id: string, caseId: string, confidence: string, source: Option<string>, attrs: seq<Entry>)
    : seq<Entry>
  {
    [Entry("id", VStr(id)), Entry("case_id", VStr(caseId)), Entry("confidence", VFloat(confidence)),
     Entry("source_plugin", if source.Some? then VStr(source.value) else VNull), Entry("attrs", VMap(attrs))]
  }

  function EdgeHead(rtype: string, src: string, dst: string, id: string): string {
    var merge := rtype + (" {id: '" + (id + "'}]->(d) SET r = "));
    "MATCH (s {id: '" + (src + ("'}), (d {id: '" + (dst + ("'}) MERGE (s)-[r:" + merge))))
  }

  // ---------- Reading the statements ----------

  /** What stands behind a fixed text. */
  function Behind(text: string, s: Option<string>): Option<string> {
    if s.Some? && |text| <= |s.value| && s.value[..|text|] == text then Some(s.value[|text|..]) else None
  }

  /** An identifier, up to the next character that cannot belong to it. */
  function ReadName(s: Option<string>): Option<(string, string)> {
    if s.None? then None
    else
      var n := SpanLen(s.value, KeyChar);
      if n == 0 then None else Some((s.value[..n], s.value[n..]))
  }

  predicate Unquoted(c: char) {
    c != '\''
  }

  /** Text up to the next quote. */
  function ReadId(s: Option<string>): Option<(string, string)> {
    if s.None? then None
    else
      var n := SpanLen(s.value, Unquoted);
      Some((s.value[..n], s.value[n..]))
  }

  function Rest<T>(r: Option<(T, string)>): Option<string> {
    if r.Some? then Some(r.value.1) else None
  }

  /** The vertex pattern of a MERGE whose properties are set from the literal behind it: label and id. */
  function ReadVertexPattern(s: string): Option<(string, string)> {
    var etype := ReadName(Behind("MERGE (v:", Some(s)));
    var id := ReadId(Behind(" {id: '", Rest(etype)));
    if Behind("'}) SET v = ", Rest(id)) == Some("") then Some((etype.value.0, id.value.0)) else None
  }

  /** A directed edge pattern: the vertex it leaves, the one it enters, its label and its id. */
  datatype EdgePattern = EdgePattern(leaves: string, enters: string, rtype: string, id: string)

  /** Two vertices are matched by id, and the edge is merged from the first to the second. */
  function ReadEdgePattern(s: string): Option<EdgePattern> {
    var first := ReadId(Behind("MATCH (s {id: '", Some(s)));
    var second := ReadId(Behind("'}), (d {id: '", Rest(first)));
    var rtype := ReadName(Behind("'}) MERGE (s)-[r:", Rest(second)));
    var id := ReadId(Behind(" {id: '", Rest(rtype)));
    if Behind("'}]->(d) SET r = ", Rest(id)) == Some("") then
      Some(EdgePattern(first.value.0, second.value.0, rtype.value.0, id.value.0))
    else None
  }

  /** A UUID as text has no quote. */
  predicate PlainId(id: string) {
    forall i :: 0 <= i < |id| ==> Unquoted(id[i])
  }

  predicate PlainName(name: string) {
    name != [] && forall i :: 0 <= i < |name| ==> KeyChar(name[i])
  }

  lemma BehindText(text: string, rest: string)
    ensures Behind(text, Some(text + rest)) == Some(rest)
  {
  }

  lemma NameIsRead(name: string, rest: string)
    requires PlainName(name) && rest != [] && !KeyChar(rest[0])
    ensures ReadName(Some(name + rest)) == Some((name, rest))
  {
    SpanOf(name, rest, KeyChar);
  }

  lemma IdIsRead(id: string, rest: string)
    requires PlainId(id) && rest != [] && rest[0] == '\''
    ensures ReadId(Some(id + rest)) == Some((id, rest))
  {
    SpanOf(id, rest, Unquoted);
  }

  /** The vertex statement merges the vertex of this label and id. */
  lemma VertexHeadReads(etype: string, id: string)
    requires PlainName(etype) && PlainId(id)
    ensures ReadVertexPattern(VertexHead(etype, id)) == Some((etype, id))
  {
    hide ReadName;
    hide ReadId;
    hide Behind;
    hide PlainName;
    hide PlainId;
    var s2 := "'}) SET v = ";
    var s1 := " {id: '" + (id + s2);
    BehindText("MERGE (v:", etype + s1);
    NameIsRead(etype, s1);
    BehindText(" {id: '", id + s2);
    IdIsRead(id, s2);
    BehindText(s2, "");
    assert s2 + "" == s2;
  }

  /** The edge statement merges an edge of this label and id that leaves the source and enters the
      destination. */
  lemma EdgeHeadReads(rtype: string, src: string, dst: string, id: string)
    requires PlainName(rtype) && PlainId(src) && PlainId(dst) && PlainId(id)
    ensures ReadEdgePattern(EdgeHead(rtype, src, dst, id)) == Some(EdgePattern(src, dst, rtype, id))
  {
    hide ReadName;
    hide ReadId;
    hide Behind;
    hide PlainName;
    hide PlainId;
    var s4 := "'}]->(d) SET r = ";
    var s3 := " {id: '" + (id + s4);
    var s2 := "'}) MERGE (s)-[r:" + (rtype + s3);
    var s1 := "'}), (d {id: '" + (dst + s2);
    BehindText("MATCH (s {id: '", src + s1);
    IdIsRead(src, s1);
    BehindText("'}), (d {id: '", dst + s2);
    IdIsRead(dst, s2);
    BehindText("'}) MERGE (s)-[r:", rtype + s3);
    NameIsRead(rtype, s3);
    BehindText(" {id: '", id + s4);
    IdIsRead(id, s4);
    BehindText(s4, "");
    assert s4 + "" == s4;
  }

  function KeysIn(es: seq<Entry>): seq<string> {
    seq(|es|, i requires 0 <= i < |es| => es[i].key)
  }

  /** The vertex carries id, case, label, confidence and attributes under these keys and nothing else. */
  lemma VertexPropsSay(id: string, caseId: string, name: string, confidence: string, attrs: seq<Entry>)
    ensures var es := VertexProps(id, caseId, name, confidence, attrs);
            && KeysIn(es) == ["id", "case_id", "label", "confidence", "attrs"]
            && Entry("id", VStr(id)) in es && Entry("case_id", VStr(caseId)) in es && Entry("label", VStr(name)) in es
            && Entry("confidence", VFloat(confidence)) in es && Entry("attrs", VMap(attrs)) in es
  {
  }

  /** The edge carries id, case, confidence, source plugin and attributes under these keys and nothing else;
      no plugin is null. */
  lemma EdgePropsSay(id: string, caseId: string, confidence: string, source: Option<string>, attrs: seq<Entry>)
    ensures var es := EdgeProps(id, caseId, confidence, source, attrs);
            && KeysIn(es) == ["id", "case_id", "confidence", "source_plugin", "attrs"]
            && Entry("id", VStr(id)) in es && Entry("case_id", VStr(caseId)) in es
            && Entry("confidence", VFloat(confidence)) in es && Entry("attrs", VMap(attrs)) in es
            && Entry("source_plugin", if source.Some? then VStr(source.value) else VNull) in es
  {
  }

  lemma FixedKeysLegal()
    ensures LegalKey("id") && LegalKey("case_id") && LegalKey("label") && LegalKey("confidence")
    ensures LegalKey("source_plugin") && LegalKey("attrs")
  {
  }

  lemma ConsReadable(e: Entry, es: seq<Entry>)
    requires LegalKey(e.key) && Readable(e.value) && NoLists(e.value) && ReadableIn(es) && NoListsIn(es)
    ensures ReadableIn([e] + es) && NoListsIn([e] + es)
  {
    assert ([e] + es)[1..] == es;
  }

  /** The two keys both mirrors end with. */
  lemma TailReadable(attrs: seq<Entry>)
    requires ReadableIn(attrs) && NoListsIn(attrs)
    ensures ReadableIn([Entry("attrs", VMap(attrs))]) && NoListsIn([Entry("attrs", VMap(attrs))])
  {
    ConsReadable(Entry("attrs", VMap(attrs)), []);
    assert [Entry("attrs", VMap(attrs))] + [] == [Entry("attrs", VMap(attrs))];
  }

  lemma VertexPropsReadable(id: string, caseId: string, name: string, confidence: string, attrs: seq<Entry>)
    requires ReadableIn(attrs) && NoListsIn(attrs) && FloatToken(confidence)
    ensures ReadableIn(VertexProps(id, caseId, name, confidence, attrs))
    ensures NoListsIn(VertexProps(id, caseId, name, confidence, attrs))
  {
    hide ReadableIn;
    hide NoListsIn;
    hide LegalKey;
    FixedKeysLegal();
    TailReadable(attrs);
    var last := [Entry("attrs", VMap(attrs))];
    var named := [Entry("label", VStr(name))] + ([Entry("confidence", VFloat(confidence))] + last);
    ConsReadable(Entry("confidence", VFloat(confidence)), last);
    ConsReadable(Entry("label", VStr(name)), [Entry("confidence", VFloat(confidence))] + last);
    ConsReadable(Entry("case_id", VStr(caseId)), named);
    ConsReadable(Entry("id", VStr(id)), [Entry("case_id", VStr(caseId))] + named);
    assert VertexProps(id, caseId, name, confidence, attrs) ==
           [Entry("id", VStr(id))] + ([Entry("case_id", VStr(caseId))] + named);
  }

  lemma EdgePropsReadable(id: string, caseId: string, confidence: string, source: Option<string>, attrs: seq<Entry>)
    requires ReadableIn(attrs) && NoListsIn(attrs) && FloatToken(confidence)
    ensures ReadableIn(EdgeProps(id, caseId, confidence, source, attrs))
    ensures NoListsIn(EdgeProps(id, caseId, confidence, source, attrs))
  {
    hide ReadableIn;
    hide NoListsIn;
    hide LegalKey;
    FixedKeysLegal();
    TailReadable(attrs);
    var last := [Entry("attrs", VMap(attrs))];
    var plugin := Entry("source_plugin", if source.Some? then VStr(source.value) else VNull);
    var rated := [Entry("confidence", VFloat(confidence))] + ([plugin] + last);
    ConsReadable(plugin, last);
    ConsReadable(Entry("confidence", VFloat(confidence)), [plugin] + last);
    ConsReadable(Entry("case_id", VStr(caseId)), rated);
    ConsReadable(Entry("id", VStr(id)), [Entry("case_id", VStr(caseId))] + rated);
    assert EdgeProps(id, caseId, confidence, source, attrs) ==
           [Entry("id", VStr(id))] + ([Entry("case_id", VStr(caseId))] + rated);
  }

  /** The tag search returned this tag for the statement. */
  predicate SafeTag(head: string, es: seq<Entry>, tail: string, hex: string) {
    HexTag(hex) && (NoListsIn(es) && Props(es).Ok? ==> !Contains(head + Props(es).value + tail, Delimiter(hex)))
  }

  /** The framed statement reads back: the constant's body is the statement, and the literal behind
      its head is the property map, up to the return clause. */
  predicate StatementReads(head: string, es: seq<Entry>, tail: string, hex: string, returnCol: string) {
    && NoListsIn(es) && Props(es).Ok?
    && var cypher := head + Props(es).value + tail;
       && ReadDollarQuoted(Frame(Delimiter(hex), cypher, returnCol)[|PREFIX|..]) ==
          Some((" " + cypher + " ", Suffix(returnCol)))
       && ReadValue(cypher[|head|..]) == Some((VMap(es), tail))
  }

  lemma StatementRoundTrip(head: string, es: seq<Entry>, tail: string, hex: string, returnCol: string)
    requires ReadableIn(es) && NoListsIn(es) && Boundary(tail) && SafeTag(head, es, tail, hex)
    ensures StatementReads(head, es, tail, hex, returnCol)
  {
    hide ReadValue;
    hide ReadDollarQuoted;
    PropsRoundTrip(es, tail);
    hide Props;
    var cypher := head + Props(es).value + tail;
    FrameRoundTrip(hex, cypher, returnCol);
    assert cypher[|head|..] == Props(es).value + tail;
  }

  /** For every entity with readable attributes, the vertex statement carries exactly its properties. */
  lemma VertexStatementRoundTrip(etype: string, id: string, caseId: string, name: string, confidence: string,
                                 attrs: seq<Entry>, hex: string)
    requires ReadableIn(attrs) && NoListsIn(attrs) && FloatToken(confidence)
    requires SafeTag(VertexHead(etype, id), VertexProps(id, caseId, name, confidence, attrs), " RETURN v", hex)
    ensures StatementReads(VertexHead(etype, id), VertexProps(id, caseId, name, confidence, attrs), " RETURN v", hex,
                           "v")
  {
    hide SafeTag;
    hide StatementReads;
    VertexPropsReadable(id, caseId, name, confidence, attrs);
    hide VertexProps;
    StatementRoundTrip(VertexHead(etype, id), VertexProps(id, caseId, name, confidence, attrs), " RETURN v", hex, "v");
  }

  lemma EdgeStatementRoundTrip(rtype: string, src: string, dst: string, id: string, caseId: string, confidence: string,
                               source: Option<string>, attrs: seq<Entry>, hex: string)
    requires ReadableIn(attrs) && NoListsIn(attrs) && FloatToken(confidence)
    requires SafeTag(EdgeHead(rtype, src, dst, id), EdgeProps(id, caseId, confidence, source, attrs), " RETURN r", hex)
    ensures StatementReads(EdgeHead(rtype, src, dst, id), EdgeProps(id, caseId, confidence, source, attrs), " RETURN r",
                           hex, "r")
  {
    hide SafeTag;
    hide StatementReads;
    EdgePropsReadable(id, caseId, confidence, source, attrs);
    hide EdgeProps;
    StatementRoundTrip(EdgeHead(rtype, src, dst, id), EdgeProps(id, caseId, confidence, source, attrs), " RETURN r",
                       hex, "r");
  }
}
