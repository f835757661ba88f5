/** Character runs and blanks, shared by the two readers. */
module Scanning {
  /** Length of the longest prefix whose characters all satisfy `p`. */
  function SpanLen(s: string, p: char -> bool): (n: nat)
    ensures n <= |s|
    ensures forall i :: 0 <= i < n ==> p(s[i])
    ensures n < |s| ==> !p(s[n])
  {
    if s == [] || !p(s[0]) then 0 else 1 + SpanLen(s[1..], p)
  }

  /** A run ends where its first foreign character stands. */
  lemma SpanOf(a: string, b: string, p: char -> bool)
    requires forall i :: 0 <= i < |a| ==> p(a[i])
    requires b == [] || !p(b[0])
    ensures SpanLen(a + b, p) == |a|
    ensures (a + b)[..|a|] == a && (a + b)[|a|..] == b
  {
    assert forall i :: 0 <= i < |a| ==> (a + b)[i] == a[i];
    assert b != [] ==> (a + b)[|a|] == b[0];
  }

  function SkipWhile(s: string, blank: char -> bool): (r: string)
    ensures |r| <= |s|
  {
    if s != [] && blank(s[0]) then SkipWhile(s[1..], blank) else s
  }
}
