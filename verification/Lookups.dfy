/** `scalar_one_or_none` on the ids a SELECT matches. */
module Lookups {
  /** It raises on `Many`. */
  datatype Lookup = NoRow | One(id: nat) | Many

  ghost function ScalarOneOrNone(ids: set<nat>): (r: Lookup)
    ensures r == NoRow <==> ids == {}
    ensures forall i: nat :: r == One(i) <==> ids == {i}
  {
    if ids == {} then NoRow
    else
      var i :| i in ids;
      if ids == {i} then One(i) else Many
  }

  method FetchOne(ids: set<nat>) returns (r: Lookup)
    ensures r == ScalarOneOrNone(ids)
  {
    if ids == {} {
      return NoRow;
    }
    var i :| i in ids;
    r := if ids == {i} then One(i) else Many;
  }
}
