/** `_validate_attrs`: the check every attribute dict passes before it reaches the encoder. */
module Validators {
  import opened Prelude
  import opened Values
  import Json

  const MAX_DEPTH := 4
  const MAX_BYTES := 64 * 1024

  datatype AttrError = TooDeep | BadKey(key: string) | TooBig(size: nat)

  predicate KeyStart(c: char) {
    'A' <= c <= 'Z' || 'a' <= c <= 'z' || c == '_'
  }

  predicate KeyChar(c: char) {
    KeyStart(c) || '0' <= c <= '9'
  }

  /** `[A-Za-z_][A-Za-z0-9_]{0,63}` */
  predicate LegalKey(k: string) {
    1 <= |k| <= 64 && KeyStart(k[0]) && forall i :: 1 <= i < |k| ==> KeyChar(k[i])
  }

  /** The recursive walk, stopping at the first violation it meets. */
  function Walk(v: Value, depth: nat): Option<AttrError>
    decreases v, 0
  {
    if depth > MAX_DEPTH then Some(TooDeep)
    else match v
      case VMap(es) => WalkEntries(es, depth + 1)
      case VList(items) => WalkItems(items, depth + 1)
      case _ => None
  }

  function WalkEntries(es: seq<Entry>, depth: nat): Option<AttrError>
    decreases es, 0
  {
    if es == [] then None
    else if !LegalKey(es[0].key) then Some(BadKey(es[0].key))
    else
      var first := Walk(es[0].value, depth);
      if first.Some? then first else WalkEntries(es[1..], depth)
  }

  function WalkItems(items: seq<Value>, depth: nat): Option<AttrError>
    decreases items, 0
  {
    if items == [] then None
    else
      var first := Walk(items[0], depth);
      if first.Some? then first else WalkItems(items[1..], depth)
  }

  /** The serialised text is ASCII, so its byte count is its length. */
  function JsonSize(v: Value): nat {
    |Json.Dump(v, Json.DEFAULT_STYLE)|
  }

  function Validate(v: Value): Option<AttrError> {
    var walked := Walk(v, 0);
    if walked.Some? then walked
    else if JsonSize(v) > MAX_BYTES then Some(TooBig(JsonSize(v)))
    else None
  }

  predicate Accepts(v: Value) {
    Validate(v).None?
  }
}
