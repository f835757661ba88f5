/** `run_cypher`: the search for a dollar-quote tag, the framed SQL, and how PostgreSQL reads it back
    (section 4.1.2.4 of the PostgreSQL 16 documentation). */
module DollarQuotes {
  import opened Prelude
  import opened Scanning

  predicate OccursAt(s: string, pat: string, i: nat) {
    i + |pat| <= |s| && s[i..i + |pat|] == pat
  }

  /** Python's `pat in s`. */
  predicate Contains(s: string, pat: string) {
    exists i: nat :: i <= |s| && OccursAt(s, pat, i)
  }

  predicate TagChar(c: char) {
    'A' <= c <= 'Z' || 'a' <= c <= 'z' || '0' <= c <= '9' || c == '_'
  }

  predicate HexTag(t: string) {
    |t| == 24 && forall i :: 0 <= i < 24 ==> '0' <= t[i] <= '9' || 'a' <= t[i] <= 'f'
  }

  function Delimiter(hex: string): string {
    "$sg_" + hex + "$"
  }

  const PREFIX := "SELECT * FROM cypher('sleuthgraph', "

  function Suffix(returnCol: string): string {
    ") AS (" + returnCol + " agtype);"
  }

  function Frame(delim: string, cypher: string, returnCol: string): string {
    PREFIX + delim + " " + cypher + " " + delim + Suffix(returnCol)
  }

  /** The statement as PostgreSQL gets it. */
  function Framed(hex: string, cypher: string, returnCol: string): (sql: string)
    ensures sql == "SELECT * FROM cypher('sleuthgraph', $sg_" + hex + "$ " + cypher + " $sg_" + hex + "$) AS ("
                   + returnCol + " agtype);"
  {
    Frame(Delimiter(hex), cypher, returnCol)
  }

  /** At most four random tags are tried; with none left the call raises. */
  method FrameCypher(cypher: string, returnCol: string, hexes: seq<string>) returns (sql: Option<string>)
    requires |hexes| == 4
    ensures sql == None <==> forall i :: 0 <= i < 4 ==> Contains(cypher, Delimiter(hexes[i]))
    ensures sql.Some? ==>
              exists i :: 0 <= i < 4 && !Contains(cypher, Delimiter(hexes[i]))
                          && (forall j :: 0 <= j < i ==> Contains(cypher, Delimiter(hexes[j])))
                          && sql.value == Framed(hexes[i], cypher, returnCol)
  {
    for i := 0 to 4
      invariant forall j :: 0 <= j < i ==> Contains(cypher, Delimiter(hexes[j]))
    {
      var delim := Delimiter(hexes[i]);
      if !Contains(cypher, delim) {
        return Some(Framed(hexes[i], cypher, returnCol));
      }
    }
    sql := None;
  }

  /** The first occurrence of `pat` at or after `i`. */
  function FindFrom(s: string, pat: string, i: nat): (r: Option<nat>)
    ensures r.Some? ==> r.value >= i && OccursAt(s, pat, r.value)
    ensures r.Some? ==> forall j: nat :: i <= j < r.value ==> !OccursAt(s, pat, j)
    ensures r.None? ==> forall j: nat :: i <= j ==> !OccursAt(s, pat, j)
    decreases |s| - i
  {
    if i > |s| then None
    else if OccursAt(s, pat, i) then Some(i)
    else FindFrom(s, pat, i + 1)
  }

  /** A dollar-quoted constant: `$tag$`, then everything up to the first `$tag$`. Gives the body and
      the text behind the constant. */
  function ReadDollarQuoted(s: string): Option<(string, string)> {
    if s == [] || s[0] != '$' then None
    else
      var n := SpanLen(s[1..], TagChar);
      if n + 1 >= |s| || s[n + 1] != '$' || (n > 0 && '0' <= s[1] <= '9') then None
      else
        var delim := s[..n + 2];
        var end := FindFrom(s, delim, n + 2);
        if end.None? then None else Some((s[n + 2..end.value], s[end.value + |delim|..]))
  }

  lemma DelimiterShape(hex: string)
    requires HexTag(hex)
    ensures var d := Delimiter(hex);
            && |d| == 29 && d[0] == '$' && d[28] == '$'
            && forall i :: 1 <= i < 28 ==> TagChar(d[i])
  {
  }

  /** No closing delimiter starts before the end of the body: not inside the Cypher text, and not
      across the two blanks around it. */
  lemma NoEarlyClose(hex: string, cypher: string, rest: string, j: nat)
    requires HexTag(hex) && !Contains(cypher, Delimiter(hex))
    requires 29 <= j < 29 + |cypher| + 2
    ensures !OccursAt(Delimiter(hex) + " " + cypher + " " + Delimiter(hex) + rest, Delimiter(hex), j)
  {
    var d := Delimiter(hex);
    DelimiterShape(hex);
    var s := d + " " + cypher + " " + d + rest;
    assert s[29] == ' ' && s[30 + |cypher|] == ' ';
    if j == 29 {
      assert s[j..j + 29][0] != d[0];
    } else if j + 29 <= 30 + |cypher| {
      assert s[30..30 + |cypher|] == cypher;
      assert cypher[j - 30..j - 30 + 29] == s[j..j + 29];
      assert !OccursAt(cypher, d, j - 30);
    } else {
      var k := 30 + |cypher| - j;
      assert s[j..j + 29][k] == ' ';
      assert d[k] != ' ';
    }
  }

  /** The opening tag is read up to its second dollar. */
  lemma TagIsRead(hex: string, after: string)
    requires HexTag(hex)
    ensures var s := Delimiter(hex) + after;
            SpanLen(s[1..], TagChar) == 27 && s[0] == '$' && s[28] == '$' && !('0' <= s[1] <= '9')
  {
    var d := Delimiter(hex);
    DelimiterShape(hex);
    var tag := d[1..28];
    assert (d + after)[1..] == tag + ("$" + after);
    SpanOf(tag, "$" + after, TagChar);
  }

  /** The first closing delimiter is the one behind the body. */
  lemma CloseIsFound(hex: string, cypher: string, rest: string)
    requires HexTag(hex) && !Contains(cypher, Delimiter(hex))
    ensures var d := Delimiter(hex);
            var s := d + " " + cypher + " " + d + rest;
            var close := 29 + |cypher| + 2;
            && FindFrom(s, d, 29) == Some(close)
            && s[29..close] == " " + cypher + " " && s[close + |d|..] == rest
  {
    var d := Delimiter(hex);
    DelimiterShape(hex);
    var s := d + " " + cypher + " " + d + rest;
    var close := 29 + |cypher| + 2;
    assert s[close..close + 29] == d;
    assert OccursAt(s, d, close);
    var end := FindFrom(s, d, 29);
    if end.value < close {
      NoEarlyClose(hex, cypher, rest, end.value);
    }
  }

  /** Whatever the Cypher text holds, PostgreSQL reads the framed constant back as that text between
      two blanks, and goes on exactly behind the closing delimiter. */
  lemma FrameRoundTrip(hex: string, cypher: string, returnCol: string)
    requires HexTag(hex) && !Contains(cypher, Delimiter(hex))
    ensures var sql := Frame(Delimiter(hex), cypher, returnCol);
            ReadDollarQuoted(sql[|PREFIX|..]) == Some((" " + cypher + " ", Suffix(returnCol)))
  {
    var d, rest := Delimiter(hex), Suffix(returnCol);
    DelimiterShape(hex);
    var s := d + " " + cypher + " " + d + rest;
    assert Frame(d, cypher, returnCol)[|PREFIX|..] == s;
    TagIsRead(hex, " " + cypher + " " + d + rest);
    assert s == d + (" " + cypher + " " + d + rest);
    CloseIsFound(hex, cypher, rest);
    hide FindFrom;
    hide Delimiter;
    assert s[..29] == d;
  }
}
