/** The Cypher map-literal printer, a reader for its output, and their round trip. */
module Cypher {
  import opened Prelude
  import opened Text
  import opened Values
  import opened Scanning
  import opened Validators

  // ---------- Escaping ----------

  /** `str.replace` of one character by a string. */
  function ReplaceAll(s: string, c: char, with: string): string {
    if s == [] then [] else (if s[0] == c then with else [s[0]]) + ReplaceAll(s[1..], c, with)
  }

  /** Backslashes first, then quotes, as the encoder does. */
  function Escape(s: string): string {
    ReplaceAll(ReplaceAll(s, '\\', "\\\\"), '\'', "\\'")
  }

  function EscapeOne(c: char): string {
    if c == '\\' then "\\\\" else if c == '\'' then "\\'" else [c]
  }

  function EscapeEach(s: string): string {
    if s == [] then [] else EscapeOne(s[0]) + EscapeEach(s[1..])
  }

  lemma {:induction false} ReplaceAllConcat(s: string, t: string, c: char, with: string)
    ensures ReplaceAll(s + t, c, with) == ReplaceAll(s, c, with) + ReplaceAll(t, c, with)
  {
    if s == [] {
      assert s + t == t;
    } else {
      assert (s + t)[1..] == s[1..] + t;
      ReplaceAllConcat(s[1..], t, c, with);
    }
  }

  /** The two replacements never interfere: together they escape each character on its own. */
  lemma {:induction false} EscapeIsOnePass(s: string)
    ensures Escape(s) == EscapeEach(s)
  {
    if s != [] {
      var first := if s[0] == '\\' then "\\\\" else [s[0]];
      var rest := ReplaceAll(s[1..], '\\', "\\\\");
      ReplaceAllConcat(first, rest, '\'', "\\'");
      EscapeIsOnePass(s[1..]);
      if s[0] == '\\' {
        assert ReplaceAll("\\\\"[1..], '\'', "\\'") == "\\" by {
          assert "\\\\"[1..] == "\\";
          assert ReplaceAll("\\"[1..], '\'', "\\'") == [];
        }
        assert ReplaceAll("\\\\", '\'', "\\'") == "\\\\";
      } else {
        assert ReplaceAll(first[1..], '\'', "\\'") == [];
        assert ReplaceAll(first, '\'', "\\'") == EscapeOne(s[0]);
      }
    }
  }

  // ---------- The printer ----------

  /** Lists print as quoted Python text and are not part of the model. */
  predicate NoLists(v: Value)
    decreases v, 0
  {
    match v
    case VList(_) => false
    case VMap(es) => NoListsIn(es)
    case _ => true
  }

  predicate NoListsIn(es: seq<Entry>)
    decreases es, 0
  {
    es == [] || (NoLists(es[0].value) && NoListsIn(es[1..]))
  }

  function Join(parts: seq<string>): string {
    if parts == [] then ""
    else if |parts| == 1 then parts[0]
    else parts[0] + ", " + Join(parts[1..])
  }

  /** `_cypher_scalar`; the error is the first illegal key. */
  function Scalar(v: Value): Result<string, string>
    requires NoLists(v)
    decreases v, 0
  {
    match v
    case VNull => Ok("null")
    case VBool(b) => Ok(if b then "true" else "false")
    case VInt(n) => Ok(Numeral(n))
    case VFloat(token) => Ok(token)
    case VStr(s) => Ok("'" + Escape(s) + "'")
    case VMap(es) => Props(es)
  }

  /** `_encode_props` */
  function Props(es: seq<Entry>): Result<string, string>
    requires NoListsIn(es)
    decreases es, 1
  {
    var parts := Parts(es);
    if parts.Err? then Err(parts.error) else Ok("{" + Join(parts.value) + "}")
  }

  function Parts(es: seq<Entry>): (r: Result<seq<string>, string>)
    requires NoListsIn(es)
    ensures r.Ok? ==> |r.value| == |es|
    decreases es, 0
  {
    if es == [] then Ok([])
    else if !LegalKey(es[0].key) then Err(es[0].key)
    else
      var text := Scalar(es[0].value);
      if text.Err? then Err(text.error)
      else
        var rest := Parts(es[1..]);
        if rest.Err? then rest else Ok([es[0].key + ": " + text.value] + rest.value)
  }

  function Prepend(parts: seq<string>, rest: Result<seq<string>, string>): Result<seq<string>, string> {
    if rest.Err? then rest else Ok(parts + rest.value)
  }

  /** The printer as `_encode_props` runs: a loop appending one part per entry. */
  method EncodeProps(es: seq<Entry>) returns (r: Result<string, string>)
    requires NoListsIn(es)
    ensures r == Props(es)
    decreases es, 1
  {
    var parts: seq<string> := [];
    assert es[0..] == es;
    assert Parts(es).Ok? ==> [] + Parts(es).value == Parts(es).value;
    for i := 0 to |es|
      invariant NoListsIn(es[i..])
      invariant Parts(es) == Prepend(parts, Parts(es[i..]))
    {
      assert es[i..][0] == es[i] && es[i..][1..] == es[i + 1..];
      if !LegalKey(es[i].key) {
        return Err(es[i].key);
      }
      var text := CypherScalar(es[i].value);
      if text.Err? {
        return Err(text.error);
      }
      ghost var part, rest := [es[i].key + ": " + text.value], Parts(es[i + 1..]);
      assert rest.Ok? ==> parts + (part + rest.value) == (parts + part) + rest.value;
      parts := parts + [es[i].key + ": " + text.value];
    }
    assert es[|es|..] == [];
    assert parts + [] == parts;
    r := Ok("{" + Join(parts) + "}");
  }

  method CypherScalar(v: Value) returns (r: Result<string, string>)
    requires NoLists(v)
    ensures r == Scalar(v)
    decreases v, 0
  {
    match v {
      case VNull => r := Ok("null");
      case VBool(b) => r := Ok(if b then "true" else "false");
      case VInt(n) => r := Ok(Numeral(n));
      case VFloat(token) => r := Ok(token);
      case VMap(es) => r := EncodeProps(es);
      case VStr(s) => r := Ok("'" + Escape(s) + "'");
    }
  }

  // ---------- The reader ----------

  predicate Blank(c: char) {
    c == ' ' || c == '\n' || c == '\t' || c == '\r'
  }

  predicate NumChar(c: char) {
    IsDigit(c) || c == '-' || c == '+' || c == '.' || c == 'e' || c == 'E'
  }

  /** `-?[0-9]+` */
  predicate IntToken(t: string) {
    (t != [] && AllDigits(t)) || (|t| > 1 && t[0] == '-' && AllDigits(t[1..]))
  }

  /** What Python prints for a finite float: a number token that is not an integer. */
  predicate FloatToken(t: string) {
    t != [] && (IsDigit(t[0]) || t[0] == '-') && (forall i :: 0 <= i < |t| ==> NumChar(t[i])) && !IntToken(t)
  }

  function IntValue(t: string): int
    requires IntToken(t)
  {
    if t[0] == '-' then -(DecimalValue(t[1..]) as int) else DecimalValue(t)
  }

  function NumberOf(t: string): Option<Value> {
    if IntToken(t) then Some(VInt(IntValue(t)))
    else if FloatToken(t) then Some(VFloat(t))
    else None
  }

  function WordOf(w: string): Option<Value> {
    if w == "null" then Some(VNull)
    else if w == "true" then Some(VBool(true))
    else if w == "false" then Some(VBool(false))
    else None
  }

  function Unescape(c: char): Option<char> {
    if c == '\\' || c == '\'' || c == '\"' || c == '/' then Some(c)
    else if c == 'n' then Some('\n')
    else if c == 'r' then Some('\r')
    else if c == 't' then Some('\t')
    else if c == 'b' then Some(8 as char)
    else if c == 'f' then Some(12 as char)
    else None
  }

  type Read<T> = Option<(T, string)>

  /** A single-quoted string, from behind its opening quote. */
  function ReadString(s: string): (r: Read<string>)
    ensures r.Some? ==> |r.value.1| < |s|
    decreases |s|
  {
    if s == [] then None
    else if s[0] == '\'' then Some(("", s[1..]))
    else if s[0] == '\\' then
      if |s| < 2 || Unescape(s[1]).None? then None
      else
        var rest := ReadString(s[2..]);
        if rest.None? then None else Some(([Unescape(s[1]).value] + rest.value.0, rest.value.1))
    else
      var rest := ReadString(s[1..]);
      if rest.None? then None else Some(([s[0]] + rest.value.0, rest.value.1))
  }

  /** One literal of the openCypher expression grammar: null, a boolean, a number, a string or a map. */
  function ReadValue(text: string): (r: Read<Value>)
    ensures r.Some? ==> |r.value.1| < |text|
    decreases |text|, 0
  {
    var s := SkipWhile(text, Blank);
    if s == [] then None
    else if s[0] == '\'' then
      var str := ReadString(s[1..]);
      if str.None? then None else Some((VStr(str.value.0), str.value.1))
    else if s[0] == '{' then
      var t := SkipWhile(s[1..], Blank);
      if t != [] && t[0] == '}' then Some((VMap([]), t[1..]))
      else
        var es := ReadEntries(t);
        if es.None? then None else Some((VMap(es.value.0), es.value.1))
    else if KeyStart(s[0]) then
      var n := SpanLen(s, KeyChar);
      var v := WordOf(s[..n]);
      if v.None? || n == 0 then None else Some((v.value, s[n..]))
    else
      var n := SpanLen(s, NumChar);
      var v := NumberOf(s[..n]);
      if v.None? || n == 0 then None else Some((v.value, s[n..]))
  }

  /** The entries of a map, up to and including its closing brace. */
  function ReadEntries(s: string): (r: Read<seq<Entry>>)
    ensures r.Some? ==> |r.value.1| < |s|
    decreases |s|, 1
  {
    var n := SpanLen(s, KeyChar);
    var afterKey := SkipWhile(s[n..], Blank);
    if !LegalKey(s[..n]) || afterKey == [] || afterKey[0] != ':' then None
    else
      var v := ReadValue(afterKey[1..]);
      if v.None? then None
      else
        var u := SkipWhile(v.value.1, Blank);
        if u == [] then None
        else if u[0] == '}' then Some(([Entry(s[..n], v.value.0)], u[1..]))
        else if u[0] != ',' then None
        else
          var rest := ReadEntries(SkipWhile(u[1..], Blank));
          if rest.None? then None else Some(([Entry(s[..n], v.value.0)] + rest.value.0, rest.value.1))
  }

  // ---------- Round trip ----------

  /** Floats carry a real number token, and every key is legal. */
  predicate Readable(v: Value)
    decreases v, 0
  {
    match v
    case VFloat(token) => FloatToken(token)
    case VList(_) => false
    case VMap(es) => ReadableIn(es)
    case _ => true
  }

  predicate ReadableIn(es: seq<Entry>)
    decreases es, 0
  {
    es == [] || (LegalKey(es[0].key) && Readable(es[0].value) && ReadableIn(es[1..]))
  }

  /** What may follow a literal without being taken for part of it. */
  predicate Boundary(rest: string) {
    rest == [] || (!KeyChar(rest[0]) && !NumChar(rest[0]))
  }

  lemma {:induction false} StringRoundTrip(s: string, rest: string)
    ensures ReadString(EscapeEach(s) + "'" + rest) == Some((s, rest))
  {
    var text := EscapeEach(s) + "'" + rest;
    if s == [] {
      assert text == ['\''] + rest;
      assert text[1..] == rest;
    } else {
      StringRoundTrip(s[1..], rest);
      var tail := EscapeEach(s[1..]) + "'" + rest;
      assert [s[0]] + s[1..] == s;
      assert text == EscapeOne(s[0]) + tail;
      if s[0] == '\\' || s[0] == '\'' {
        assert text[0] == '\\' && text[1] == s[0] && text[2..] == tail;
      } else {
        assert text[0] == s[0] && text[1..] == tail;
      }
    }
  }

  lemma NumeralIsToken(n: int)
    ensures IntToken(Numeral(n)) && IntValue(Numeral(n)) == n
    ensures forall i :: 0 <= i < |Numeral(n)| ==> NumChar(Numeral(n)[i])
    ensures !Blank(Numeral(n)[0]) && Numeral(n)[0] != '\'' && Numeral(n)[0] != '{' && !KeyStart(Numeral(n)[0])
  {
    if n < 0 {
      DecimalRoundTrip(-n);
      assert Numeral(n)[1..] == Decimal(-n);
    } else {
      DecimalRoundTrip(n);
    }
  }

  lemma NumberRoundTrip(token: string, v: Value, rest: string)
    requires token != [] && NumberOf(token) == Some(v) && (forall i :: 0 <= i < |token| ==> NumChar(token[i]))
    requires !Blank(token[0]) && token[0] != '\'' && token[0] != '{' && !KeyStart(token[0])
    requires Boundary(rest)
    ensures ReadValue(token + rest) == Some((v, rest))
  {
    SpanOf(token, rest, NumChar);
  }

  lemma WordRoundTrip(w: string, v: Value, rest: string)
    requires WordOf(w) == Some(v) && Boundary(rest)
    ensures ReadValue(w + rest) == Some((v, rest))
  {
    SpanOf(w, rest, KeyChar);
  }

  /** Reading what was printed gives the value back and consumes exactly the printed text. */
  lemma {:induction false} ValueRoundTrip(v: Value, rest: string)
    requires Readable(v) && NoLists(v) && Boundary(rest)
    ensures Scalar(v).Ok? && ReadValue(Scalar(v).value + rest) == Some((v, rest))
    ensures Scalar(v).value != [] && !Blank(Scalar(v).value[0])
    decreases v, 0
  {
    match v {
      case VNull => WordRoundTrip("null", v, rest);
      case VBool(b) => WordRoundTrip(if b then "true" else "false", v, rest);
      case VInt(n) =>
        NumeralIsToken(n);
        NumberRoundTrip(Numeral(n), v, rest);
      case VFloat(token) =>
        NumberRoundTrip(token, v, rest);
      case VStr(s) =>
        EscapeIsOnePass(s);
        StringRoundTrip(s, rest);
        var text := "'" + Escape(s) + "'" + rest;
        assert text[1..] == EscapeEach(s) + "'" + rest;
        assert Scalar(v).value + rest == text;
      case VMap(es) =>
        PropsRoundTrip(es, rest);
    }
  }

  lemma {:induction false} PropsRoundTrip(es: seq<Entry>, rest: string)
    requires ReadableIn(es) && NoListsIn(es)
    ensures Props(es).Ok? && ReadValue(Props(es).value + rest) == Some((VMap(es), rest))
    ensures Props(es).value != [] && !Blank(Props(es).value[0])
    decreases es, 1
  {
    hide ReadValue;
    hide ReadEntries;
    EntriesRoundTrip(es, rest);
    var inner := Join(Parts(es).value) + "}" + rest;
    assert Props(es).value + rest == "{" + inner;
    if es == [] {
      assert inner == "}" + rest;
      ReadEmptyMap(rest);
    } else {
      ReadMap(inner, es, rest);
    }
  }

  lemma ReadEmptyMap(rest: string)
    ensures ReadValue("{" + ("}" + rest)) == Some((VMap([]), rest))
  {
    var t := "}" + rest;
    assert ("{" + t)[1..] == t && t[1..] == rest;
  }

  lemma ReadMap(t: string, es: seq<Entry>, rest: string)
    requires t != [] && KeyStart(t[0]) && ReadEntries(t) == Some((es, rest))
    ensures ReadValue("{" + t) == Some((VMap(es), rest))
  {
    hide ReadEntries;
    assert ("{" + t)[1..] == t;
  }

  /** One entry is read up to the separator behind its value. */
  lemma ReadEntry(key: string, valueText: string, v: Value, tail: string)
    requires LegalKey(key) && valueText != [] && !Blank(valueText[0]) && ReadValue(valueText + tail) == Some((v, tail))
    ensures var text := key + (": " + valueText + tail);
            var n := SpanLen(text, KeyChar);
            && n == |key| && text[..n] == key
            && SkipWhile(text[n..], Blank) == ": " + valueText + tail
            && ReadValue((": " + valueText + tail)[1..]) == Some((v, tail))
  {
    hide ReadValue;
    var after := ": " + valueText + tail;
    assert after[0] == ':' && !KeyChar(':');
    SpanOf(key, after, KeyChar);
    assert after[1..] == " " + (valueText + tail);
    SkipOneBlank(valueText + tail);
  }

  lemma ReadLastEntry(key: string, valueText: string, v: Value, rest: string)
    requires LegalKey(key) && valueText != [] && !Blank(valueText[0])
    requires ReadValue(valueText + ("}" + rest)) == Some((v, "}" + rest))
    ensures ReadEntries(key + (": " + valueText + ("}" + rest))) == Some(([Entry(key, v)], rest))
  {
    hide ReadValue;
    var tail := "}" + rest;
    ReadEntry(key, valueText, v, tail);
    assert tail[1..] == rest;
  }

  lemma SkipNoBlank(s: string)
    requires s != [] && !Blank(s[0])
    ensures SkipWhile(s, Blank) == s
  {
  }

  lemma ReadFirstEntry(key: string, valueText: string, v: Value, next: string, es: seq<Entry>, rest: string)
    requires LegalKey(key) && valueText != [] && !Blank(valueText[0])
    requires ReadValue(valueText + (", " + next)) == Some((v, ", " + next))
    requires next != [] && !Blank(next[0]) && ReadEntries(next) == Some((es, rest))
    ensures ReadEntries(key + (": " + valueText + (", " + next))) == Some(([Entry(key, v)] + es, rest))
  {
    hide ReadValue;
    hide SkipWhile;
    hide SpanLen;
    hide LegalKey;
    var tail := ", " + next;
    ReadEntry(key, valueText, v, tail);
    assert tail[1..] == " " + next;
    SkipNoBlank(tail);
    SkipOneBlank(next);
  }

  lemma JoinCons(key: string, value: string, more: seq<string>, rest: string)
    requires key != []
    ensures var text := Join([key + ": " + value] + more) + "}" + rest;
            && text[0] == key[0]
            && text == key + (": " + value + if more == [] then "}" + rest else ", " + (Join(more) + "}" + rest))
  {
    var parts := [key + ": " + value] + more;
    assert parts[1..] == more;
  }

  lemma KeyStarts(key: string)
    requires LegalKey(key)
    ensures key != [] && KeyStart(key[0])
  {
  }

  lemma {:induction false} EntriesRoundTrip(es: seq<Entry>, rest: string)
    requires ReadableIn(es) && NoListsIn(es)
    ensures Parts(es).Ok?
    ensures es != [] ==>
              var text := Join(Parts(es).value) + "}" + rest;
              text != [] && ReadEntries(text) == Some((es, rest)) && KeyStart(text[0])
    decreases es, 0
  {
    hide ReadValue;
    hide ReadEntries;
    hide Scalar;
    hide Readable;
    hide LegalKey;
    hide Join;
    if es != [] {
      KeyStarts(es[0].key);
      var e := es[0];
      EntriesRoundTrip(es[1..], rest);
      var more := Parts(es[1..]).value;
      var next := Join(more) + "}" + rest;
      var tail := if |es| == 1 then "}" + rest else ", " + next;
      ValueRoundTrip(e.value, tail);
      var value := Scalar(e.value).value;
      JoinCons(e.key, value, more, rest);
      if |es| == 1 {
        ReadLastEntry(e.key, value, e.value, rest);
        assert es == [Entry(e.key, e.value)];
      } else {
        ReadFirstEntry(e.key, value, e.value, next, es[1..], rest);
        assert es == [Entry(e.key, e.value)] + es[1..];
      }
    }
  }

  /** A single blank before a literal is skipped, and the literal is read from its start. */
  lemma SkipOneBlank(s: string)
    requires s != [] && !Blank(s[0])
    ensures SkipWhile(" " + s, Blank) == s
    ensures ReadValue(" " + s) == ReadValue(s)
  {
    assert (" " + s)[1..] == s;
  }

  /** The printed text of a map reads back as exactly that map, key order included. */
  lemma CypherRoundTrip(es: seq<Entry>)
    requires ReadableIn(es) && NoListsIn(es)
    ensures Props(es).Ok? && ReadValue(Props(es).value) == Some((VMap(es), ""))
  {
    PropsRoundTrip(es, "");
    assert Props(es).value + "" == Props(es).value;
  }

  /** Two maps with the same printed text are the same map. */
  lemma PrinterInjective(es: seq<Entry>, es': seq<Entry>)
    requires ReadableIn(es) && NoListsIn(es) && ReadableIn(es') && NoListsIn(es')
    requires Props(es) == Props(es')
    ensures es == es'
  {
    CypherRoundTrip(es);
    CypherRoundTrip(es');
  }
}
