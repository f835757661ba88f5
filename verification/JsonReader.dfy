/** A reader for JSON text (sections 4 to 7 of RFC 8259; escaped surrogates are refused, as the
    canonical printer never writes them), and its round trip with the canonical printer. */
module JsonReader {
  import opened Prelude
  import opened Text
  import opened Values
  import opened Scanning
  import opened Json

  type Read<T> = Option<(T, string)>

  predicate Blank(c: char) {
    c == ' ' || c == '\t' || c == '\n' || c == '\r'
  }

  predicate Letter(c: char) {
    'a' <= c <= 'z'
  }

  predicate NumChar(c: char) {
    IsDigit(c) || c == '-' || c == '+' || c == '.' || c == 'e' || c == 'E'
  }

  // ---------- Numbers (section 6) ----------

  function Unsigned(t: string): string {
    if t != [] && t[0] == '-' then t[1..] else t
  }

  predicate IntPart(d: string) {
    d != [] && AllDigits(d) && (|d| == 1 || d[0] != '0')
  }

  predicate ExpPart(t: string) {
    t == [] || ((t[0] == 'e' || t[0] == 'E') &&
                var u := if |t| > 1 && (t[1] == '+' || t[1] == '-') then t[2..] else t[1..];
                u != [] && AllDigits(u))
  }

  predicate FracExp(t: string) {
    if t != [] && t[0] == '.' then
      var n := SpanLen(t[1..], IsDigit);
      n > 0 && ExpPart(t[1 + n..])
    else ExpPart(t)
  }

  predicate JsonNumber(t: string) {
    var u := Unsigned(t);
    var n := SpanLen(u, IsDigit);
    IntPart(u[..n]) && FracExp(u[n..])
  }

  predicate JsonInt(t: string) {
    IntPart(Unsigned(t))
  }

  function NumberOf(t: string): Option<Value> {
    if JsonInt(t) then
      var n := DecimalValue(Unsigned(t));
      Some(VInt(if t[0] == '-' then -(n as int) else n))
    else if JsonNumber(t) then Some(VFloat(t))
    else None
  }

  function WordOf(w: string): Option<Value> {
    if w == "null" then Some(VNull)
    else if w == "true" then Some(VBool(true))
    else if w == "false" then Some(VBool(false))
    else None
  }

  // ---------- Strings (section 7) ----------

  function HexValue(c: char): Option<nat> {
    if '0' <= c <= '9' then Some(c as int - '0' as int)
    else if 'a' <= c <= 'f' then Some(c as int - 'a' as int + 10)
    else if 'A' <= c <= 'F' then Some(c as int - 'A' as int + 10)
    else None
  }

  /** The character four hex digits stand for. */
  function HexChar(s: string): Option<char>
    requires |s| == 4
  {
    var a, b, c, d := HexValue(s[0]), HexValue(s[1]), HexValue(s[2]), HexValue(s[3]);
    if a.None? || b.None? || c.None? || d.None? then None
    else
      var n := a.value * 4096 + b.value * 256 + c.value * 16 + d.value;
      if 0xD800 <= n < 0xE000 || n >= 0x1_0000 then None else Some(n as char)
  }

  /** The character behind a backslash and how much text it takes, backslash included. */
  function Unescape(s: string): Option<(char, nat)>
    requires |s| >= 2
    ensures Unescape(s).Some? ==> 2 <= Unescape(s).value.1 <= |s|
  {
    var c := s[1];
    if c == '\"' || c == '\\' || c == '/' then Some((c, 2))
    else if c == 'b' then Some((8 as char, 2))
    else if c == 'f' then Some((12 as char, 2))
    else if c == 'n' then Some(('\n', 2))
    else if c == 'r' then Some(('\r', 2))
    else if c == 't' then Some(('\t', 2))
    else if c == 'u' && |s| >= 6 && HexChar(s[2..6]).Some? then Some((HexChar(s[2..6]).value, 6))
    else None
  }

  /** A string from behind its opening quote. */
  function ReadString(s: string): (r: Read<string>)
    ensures r.Some? ==> |r.value.1| < |s|
    decreases |s|
  {
    if s == [] then None
    else if s[0] == '\"' then Some(("", s[1..]))
    else if s[0] == '\\' then
      if |s| < 2 || Unescape(s).None? then None
      else
        var (c, n) := Unescape(s).value;
        var rest := ReadString(s[n..]);
        if rest.None? then None else Some(([c] + rest.value.0, rest.value.1))
    else if s[0] < ' ' then None
    else
      var rest := ReadString(s[1..]);
      if rest.None? then None else Some(([s[0]] + rest.value.0, rest.value.1))
  }

  // ---------- Values (sections 3 to 5) ----------

  function ReadJson(text: string): (r: Read<Value>)
    ensures r.Some? ==> |r.value.1| < |text|
    decreases |text|, 0
  {
    var s := SkipWhile(text, Blank);
    if s == [] then None
    else if s[0] == '\"' then
      var str := ReadString(s[1..]);
      if str.None? then None else Some((VStr(str.value.0), str.value.1))
    else if s[0] == '{' then
      var t := SkipWhile(s[1..], Blank);
      if t != [] && t[0] == '}' then Some((VMap([]), t[1..]))
      else
        var es := ReadMembers(t);
        if es.None? then None else Some((VMap(es.value.0), es.value.1))
    else if s[0] == '[' then
      var t := SkipWhile(s[1..], Blank);
      if t != [] && t[0] == ']' then Some((VList([]), t[1..]))
      else
        var items := ReadItems(t);
        if items.None? then None else Some((VList(items.value.0), items.value.1))
    else if Letter(s[0]) then
      var n := SpanLen(s, Letter);
      var v := WordOf(s[..n]);
      if v.None? || n == 0 then None else Some((v.value, s[n..]))
    else
      var n := SpanLen(s, NumChar);
      var v := NumberOf(s[..n]);
      if v.None? || n == 0 then None else Some((v.value, s[n..]))
  }

  function ReadItems(s: string): (r: Read<seq<Value>>)
    ensures r.Some? ==> |r.value.1| < |s|
    decreases |s|, 1
  {
    var v := ReadJson(s);
    if v.None? then None
    else
      var u := SkipWhile(v.value.1, Blank);
      if u == [] then None
      else if u[0] == ']' then Some(([v.value.0], u[1..]))
      else if u[0] != ',' then None
      else
        var rest := ReadItems(u[1..]);
        if rest.None? then None else Some(([v.value.0] + rest.value.0, rest.value.1))
  }

  function ReadMembers(s: string): (r: Read<seq<Entry>>)
    ensures r.Some? ==> |r.value.1| < |s|
    decreases |s|, 1
  {
    if s == [] || s[0] != '\"' then None
    else
      var key := ReadString(s[1..]);
      if key.None? then None
      else
        var t := SkipWhile(key.value.1, Blank);
        if t == [] || t[0] != ':' then None
        else
          var v := ReadJson(t[1..]);
          if v.None? then None
          else
            var u := SkipWhile(v.value.1, Blank);
            if u == [] then None
            else if u[0] == '}' then Some(([Entry(key.value.0, v.value.0)], u[1..]))
            else if u[0] != ',' then None
            else
              var rest := ReadMembers(SkipWhile(u[1..], Blank));
              if rest.None? then None
              else Some(([Entry(key.value.0, v.value.0)] + rest.value.0, rest.value.1))
  }

  // ---------- Round trip ----------

  /** Floats carry a finite JSON number token. */
  predicate Printable(v: Value)
    decreases v, 0
  {
    match v
    case VFloat(token) => FloatToken(token)
    case VMap(es) => PrintableEntries(es)
    case VList(items) => PrintableItems(items)
    case _ => true
  }

  predicate FloatToken(t: string) {
    && t != [] && (forall i :: 0 <= i < |t| ==> NumChar(t[i])) && (t[0] == '-' || IsDigit(t[0]))
    && NumberOf(t) == Some(VFloat(t))
  }

  predicate PrintableEntries(es: seq<Entry>)
    decreases es, 0
  {
    es == [] || (Printable(es[0].value) && PrintableEntries(es[1..]))
  }

  predicate PrintableItems(items: seq<Value>)
    decreases items, 0
  {
    items == [] || (Printable(items[0]) && PrintableItems(items[1..]))
  }

  /** What may follow a value. */
  predicate Boundary(rest: string) {
    rest == [] || rest[0] == ',' || rest[0] == ']' || rest[0] == '}'
  }

  lemma HexRoundTrip(c: char)
    requires c as int < 32
    ensures HexChar(Hex4(c as int)) == Some(c)
  {
    var n := c as int;
    assert n / 4096 == 0 && n / 256 % 16 == 0;
    assert n == n / 16 % 16 * 16 + n % 16;
  }

  lemma EscapeReads(c: char, rest: string)
    requires EscapeChar(c, false)[0] == '\\'
    ensures var e := EscapeChar(c, false);
            |e + rest| >= 2 && Unescape(e + rest) == Some((c, |e|))
  {
    var e := EscapeChar(c, false);
    if |e| == 6 {
      HexRoundTrip(c);
      assert (e + rest)[2..6] == Hex4(c as int);
    }
  }

  /** One escaped character reads back as itself, and reading goes on behind it. */
  lemma CharRoundTrip(c: char, rest: string)
    requires ReadString(rest).Some?
    ensures var r := ReadString(rest).value;
            ReadString(EscapeChar(c, false) + rest) == Some(([c] + r.0, r.1))
  {
    var e := EscapeChar(c, false);
    assert (e + rest)[|e|..] == rest && (e + rest)[0] == e[0];
    if e[0] == '\\' {
      EscapeReads(c, rest);
      hide EscapeChar;
      hide Unescape;
    } else {
      assert e == [c] && c >= ' ' && c != '\"';
    }
  }

  lemma ReadClose(rest: string)
    ensures ReadString("\"" + rest) == Some(("", rest))
  {
    assert ("\"" + rest)[1..] == rest;
  }

  lemma {:induction false} StringRoundTrip(s: string, rest: string)
    ensures ReadString(EscapeAll(s, false) + ("\"" + rest)) == Some((s, rest))
  {
    hide ReadString;
    hide EscapeChar;
    var close := "\"" + rest;
    if s == [] {
      ReadClose(rest);
      assert EscapeAll(s, false) + close == close;
    } else {
      StringRoundTrip(s[1..], rest);
      var tail := EscapeAll(s[1..], false) + close;
      CharRoundTrip(s[0], tail);
      assert EscapeAll(s, false) + close == EscapeChar(s[0], false) + tail;
      assert [s[0]] + s[1..] == s;
    }
  }

  lemma QuoteStarts(s: string)
    ensures Starts(Quote(s, false))
  {
  }

  lemma QuoteRoundTrip(s: string, rest: string)
    ensures ReadJson(Quote(s, false) + rest) == Some((VStr(s), rest))
    ensures ReadString((Quote(s, false) + rest)[1..]) == Some((s, rest))
  {
    hide EscapeAll;
    hide ReadString;
    hide ReadItems;
    hide ReadMembers;
    StringRoundTrip(s, rest);
    var text := Quote(s, false) + rest;
    assert text[0] == '\"' && text[1..] == EscapeAll(s, false) + ("\"" + rest);
    assert SkipWhile(text, Blank) == text;
  }

  lemma NumeralIsNumber(n: int)
    ensures NumberOf(Numeral(n)) == Some(VInt(n))
    ensures forall i :: 0 <= i < |Numeral(n)| ==> NumChar(Numeral(n)[i])
    ensures Numeral(n)[0] == '-' || IsDigit(Numeral(n)[0])
  {
    var m := if n < 0 then -n else n;
    DecimalRoundTrip(m);
    DecimalLeading(m);
    assert Unsigned(Numeral(n)) == Decimal(m);
  }

  lemma NumberRoundTrip(token: string, v: Value, rest: string)
    requires token != [] && NumberOf(token) == Some(v) && (token[0] == '-' || IsDigit(token[0]))
    requires (forall i :: 0 <= i < |token| ==> NumChar(token[i])) && Boundary(rest)
    ensures ReadJson(token + rest) == Some((v, rest))
  {
    hide NumberOf;
    SpanOf(token, rest, NumChar);
  }

  lemma WordRoundTrip(w: string, v: Value, rest: string)
    requires WordOf(w) == Some(v) && Boundary(rest)
    ensures ReadJson(w + rest) == Some((v, rest))
  {
    SpanOf(w, rest, Letter);
  }

  /** A printed value starts with none of the characters that would be skipped or close a container. */
  predicate Starts(s: string) {
    s != [] && !Blank(s[0]) && s[0] != '}' && s[0] != ']'
  }

  lemma {:induction false} ValueRoundTrip(v: Value, rest: string)
    requires Printable(v) && Boundary(rest)
    ensures ReadJson(Dump(v, CANONICAL_STYLE) + rest) == Some((v, rest))
    ensures Starts(Dump(v, CANONICAL_STYLE))
    decreases v, 0
  {
    hide ReadJson;
    hide DumpEntries;
    hide DumpItems;
    hide NumberOf;
    hide Quote;
    match v {
      case VNull => WordRoundTrip("null", v, rest);
      case VBool(b) => WordRoundTrip(if b then "true" else "false", v, rest);
      case VInt(n) =>
        NumeralIsNumber(n);
        NumberRoundTrip(Numeral(n), v, rest);
      case VFloat(token) =>
        NumberRoundTrip(token, v, rest);
      case VStr(s) =>
        QuoteRoundTrip(s, rest);
        QuoteStarts(s);
      case VMap(es) => MapRoundTrip(es, rest);
      case VList(items) => ListRoundTrip(items, rest);
    }
  }

  lemma {:induction false} MapRoundTrip(es: seq<Entry>, rest: string)
    requires PrintableEntries(es)
    ensures ReadJson("{" + DumpEntries(es, CANONICAL_STYLE) + "}" + rest) == Some((VMap(es), rest))
    decreases es, 1
  {
    hide ReadJson;
    hide ReadMembers;
    MembersRoundTrip(es, rest);
    var inner := DumpEntries(es, CANONICAL_STYLE) + "}" + rest;
    assert "{" + DumpEntries(es, CANONICAL_STYLE) + "}" + rest == "{" + inner;
    if es == [] {
      assert inner == "}" + rest;
      ReadEmptyMap(rest);
    } else {
      ReadMap(inner, es, rest);
    }
  }

  lemma {:induction false} ListRoundTrip(items: seq<Value>, rest: string)
    requires PrintableItems(items)
    ensures ReadJson("[" + DumpItems(items, CANONICAL_STYLE) + "]" + rest) == Some((VList(items), rest))
    decreases items, 1
  {
    hide ReadJson;
    hide ReadItems;
    ItemsRoundTrip(items, rest);
    var inner := DumpItems(items, CANONICAL_STYLE) + "]" + rest;
    assert "[" + DumpItems(items, CANONICAL_STYLE) + "]" + rest == "[" + inner;
    if items == [] {
      assert inner == "]" + rest;
      ReadEmptyList(rest);
    } else {
      ReadList(inner, items, rest);
    }
  }

  lemma ReadEmptyMap(rest: string)
    ensures ReadJson("{" + ("}" + rest)) == Some((VMap([]), rest))
  {
    var t := "}" + rest;
    assert ("{" + t)[1..] == t && t[1..] == rest;
  }

  lemma ReadEmptyList(rest: string)
    ensures ReadJson("[" + ("]" + rest)) == Some((VList([]), rest))
  {
    var t := "]" + rest;
    assert ("[" + t)[1..] == t && t[1..] == rest;
  }

  lemma ReadMap(t: string, es: seq<Entry>, rest: string)
    requires Starts(t) && ReadMembers(t) == Some((es, rest))
    ensures ReadJson("{" + t) == Some((VMap(es), rest))
  {
    hide ReadMembers;
    assert ("{" + t)[1..] == t;
  }

  lemma ReadList(t: string, items: seq<Value>, rest: string)
    requires Starts(t) && ReadItems(t) == Some((items, rest))
    ensures ReadJson("[" + t) == Some((VList(items), rest))
  {
    hide ReadItems;
    assert ("[" + t)[1..] == t;
  }

  lemma ItemsText(items: seq<Value>, rest: string)
    requires items != []
    ensures var next := DumpItems(items[1..], CANONICAL_STYLE) + "]" + rest;
            var tail := if |items| == 1 then "]" + rest else "," + next;
            DumpItems(items, CANONICAL_STYLE) + "]" + rest == Dump(items[0], CANONICAL_STYLE) + tail
  {
    hide Dump;
    var d := Dump(items[0], CANONICAL_STYLE);
    if |items| == 1 {
      Regroup(d, "", "", "]", rest);
    } else {
      Regroup(d, ",", DumpItems(items[1..], CANONICAL_STYLE), "]", rest);
    }
  }

  lemma Regroup(a: string, b: string, c: string, d: string, e: string)
    ensures a + b + c + d + e == a + (b + (c + d + e))
    ensures b == "" && c == "" ==> a + d + e == a + (d + e)
  {
  }

  lemma OneMember(es: seq<Entry>)
    requires |es| == 1
    ensures DumpEntries(es, CANONICAL_STYLE) == Quote(es[0].key, false) + ":" + Dump(es[0].value, CANONICAL_STYLE)
  {
    hide Quote;
  }

  lemma MoreMembers(es: seq<Entry>)
    requires |es| > 1
    ensures DumpEntries(es, CANONICAL_STYLE) ==
            Quote(es[0].key, false) + ":" + Dump(es[0].value, CANONICAL_STYLE) + ","
            + DumpEntries(es[1..], CANONICAL_STYLE)
  {
    hide Quote;
    hide Dump;
  }

  lemma MembersText(es: seq<Entry>, rest: string)
    requires es != []
    ensures var next := DumpEntries(es[1..], CANONICAL_STYLE) + "}" + rest;
            var tail := if |es| == 1 then "}" + rest else "," + next;
            DumpEntries(es, CANONICAL_STYLE) + "}" + rest ==
            Quote(es[0].key, false) + (":" + (Dump(es[0].value, CANONICAL_STYLE) + tail))
  {
    hide Dump;
    hide Quote;
    hide DumpEntries;
    var q, d := Quote(es[0].key, false), Dump(es[0].value, CANONICAL_STYLE);
    if |es| == 1 {
      OneMember(es);
      FlatLast(q, d, rest);
    } else {
      MoreMembers(es);
      FlatMore(q, d, DumpEntries(es[1..], CANONICAL_STYLE), rest);
    }
  }

  lemma FlatLast(q: string, d: string, rest: string)
    ensures q + ":" + d + "}" + rest == q + (":" + (d + ("}" + rest)))
  {
  }

  lemma FlatMore(q: string, d: string, more: string, rest: string)
    ensures q + ":" + d + "," + more + "}" + rest == q + (":" + (d + ("," + (more + "}" + rest))))
  {
    var tail := "," + (more + "}" + rest);
    assert d + "," + more + "}" + rest == d + tail;
    assert q + ":" + d + "," + more + "}" + rest == q + ":" + (d + "," + more + "}" + rest);
    assert q + ":" + (d + tail) == q + (":" + (d + tail));
  }

  lemma {:induction false} ItemsRoundTrip(items: seq<Value>, rest: string)
    requires PrintableItems(items)
    ensures items != [] ==>
              var text := DumpItems(items, CANONICAL_STYLE) + "]" + rest;
              Starts(text) && ReadItems(text) == Some((items, rest))
    decreases items, 0
  {
    hide ReadJson;
    hide ReadItems;
    hide Dump;
    hide DumpItems;
    hide Printable;
    if items != [] {
      ItemsRoundTrip(items[1..], rest);
      var next := DumpItems(items[1..], CANONICAL_STYLE) + "]" + rest;
      var tail := if |items| == 1 then "]" + rest else "," + next;
      ValueRoundTrip(items[0], tail);
      var d := Dump(items[0], CANONICAL_STYLE);
      ItemsText(items, rest);
      if |items| == 1 {
        ReadLastItem(d, items[0], rest);
        assert items == [items[0]];
      } else {
        ReadFirstItem(d, items[0], next, items[1..], rest);
        assert items == [items[0]] + items[1..];
      }
    }
  }

  lemma ReadLastItem(d: string, v: Value, rest: string)
    requires ReadJson(d + ("]" + rest)) == Some((v, "]" + rest))
    ensures ReadItems(d + ("]" + rest)) == Some(([v], rest))
  {
    hide ReadJson;
    assert ("]" + rest)[1..] == rest;
  }

  lemma ReadFirstItem(d: string, v: Value, next: string, items: seq<Value>, rest: string)
    requires ReadJson(d + ("," + next)) == Some((v, "," + next))
    requires ReadItems(next) == Some((items, rest))
    ensures ReadItems(d + ("," + next)) == Some(([v] + items, rest))
  {
    hide ReadJson;
    assert ("," + next)[1..] == next;
  }

  lemma {:induction false} MembersRoundTrip(es: seq<Entry>, rest: string)
    requires PrintableEntries(es)
    ensures es != [] ==>
              var text := DumpEntries(es, CANONICAL_STYLE) + "}" + rest;
              Starts(text) && ReadMembers(text) == Some((es, rest))
    decreases es, 0
  {
    hide ReadJson;
    hide ReadMembers;
    hide Dump;
    hide DumpEntries;
    hide Quote;
    hide Printable;
    if es != [] {
      var e := es[0];
      QuoteStarts(e.key);
      MembersRoundTrip(es[1..], rest);
      var next := DumpEntries(es[1..], CANONICAL_STYLE) + "}" + rest;
      var tail := if |es| == 1 then "}" + rest else "," + next;
      ValueRoundTrip(e.value, tail);
      var d := Dump(e.value, CANONICAL_STYLE);
      MembersText(es, rest);
      if |es| == 1 {
        ReadLastMember(e, d, rest);
        assert es == [e];
      } else {
        ReadFirstMember(e, d, next, es[1..], rest);
        assert es == [e] + es[1..];
      }
    }
  }

  lemma ReadLastMember(e: Entry, d: string, rest: string)
    requires ReadJson(d + ("}" + rest)) == Some((e.value, "}" + rest))
    ensures ReadMembers(Quote(e.key, false) + (":" + (d + ("}" + rest)))) == Some(([e], rest))
  {
    hide ReadJson;
    var after := ":" + (d + ("}" + rest));
    QuoteRoundTrip(e.key, after);
    assert after[1..] == d + ("}" + rest) && ("}" + rest)[1..] == rest;
  }

  lemma ReadFirstMember(e: Entry, d: string, next: string, es: seq<Entry>, rest: string)
    requires ReadJson(d + ("," + next)) == Some((e.value, "," + next))
    requires Starts(next) && ReadMembers(next) == Some((es, rest))
    ensures ReadMembers(Quote(e.key, false) + (":" + (d + ("," + next)))) == Some(([e] + es, rest))
  {
    hide ReadJson;
    var after := ":" + (d + ("," + next));
    QuoteRoundTrip(e.key, after);
    assert after[1..] == d + ("," + next) && ("," + next)[1..] == next;
  }

  /** Reading the printed text of a value recovers it and leaves nothing. */
  lemma JsonRoundTrip(v: Value)
    requires Printable(v)
    ensures ReadJson(Dump(v, CANONICAL_STYLE)) == Some((v, ""))
  {
    ValueRoundTrip(v, "");
    assert Dump(v, CANONICAL_STYLE) + "" == Dump(v, CANONICAL_STYLE);
  }
}
