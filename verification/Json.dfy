/** `json.dumps` on attribute values. */
module Json {
  import opened Text
  import opened Values

  /** The keyword arguments of `json.dumps` that the repository varies. */
  datatype Style = Style(asciiOnly: bool, itemSep: string, keySep: string)

  /** What `json.dumps(value)` uses. */
  const DEFAULT_STYLE := Style(true, ", ", ": ")

  /** What `canonical_json_bytes` uses. */
  const CANONICAL_STYLE := Style(false, ",", ":")

  function HexDigit(d: nat): char
    requires d < 16
  {
    if d < 10 then DigitChar(d) else ('a' as int + d - 10) as char
  }

  function Hex4(n: nat): (s: string)
    requires n < 0x1_0000
    ensures |s| == 4
  {
    [HexDigit(n / 4096), HexDigit(n / 256 % 16), HexDigit(n / 16 % 16), HexDigit(n % 16)]
  }

  function EscapeChar(c: char, asciiOnly: bool): (s: string)
    ensures |s| >= 1
  {
    if c == '\"' then "\\\""
    else if c == '\\' then "\\\\"
    else if c == '\n' then "\\n"
    else if c == '\r' then "\\r"
    else if c == '\t' then "\\t"
    else if c as int == 8 then "\\b"
    else if c as int == 12 then "\\f"
    else if c as int < 32 then "\\u" + Hex4(c as int)
    else if asciiOnly && c > '~' then
      if c as int < 0x1_0000 then "\\u" + Hex4(c as int)
      else
        var v := c as int - 0x1_0000;
        "\\u" + Hex4(0xD800 + v / 0x400 % 0x400) + "\\u" + Hex4(0xDC00 + v % 0x400)
    else [c]
  }

  function EscapeAll(s: string, asciiOnly: bool): (r: string)
    ensures |r| >= |s|
  {
    if s == [] then [] else EscapeChar(s[0], asciiOnly) + EscapeAll(s[1..], asciiOnly)
  }

  function Quote(s: string, asciiOnly: bool): string {
    "\"" + EscapeAll(s, asciiOnly) + "\""
  }

  function Dump(v: Value, st: Style): string
    decreases v, 0
  {
    match v
    case VNull => "null"
    case VBool(b) => if b then "true" else "false"
    case VInt(n) => Numeral(n)
    case VFloat(token) => token
    case VStr(s) => Quote(s, st.asciiOnly)
    case VList(items) => "[" + DumpItems(items, st) + "]"
    case VMap(entries) => "{" + DumpEntries(entries, st) + "}"
  }

  function DumpItems(items: seq<Value>, st: Style): string
    decreases items, 0
  {
    if items == [] then ""
    else if |items| == 1 then Dump(items[0], st)
    else Dump(items[0], st) + st.itemSep + DumpItems(items[1..], st)
  }

  function DumpEntry(e: Entry, st: Style): string
    decreases e, 0
  {
    Quote(e.key, st.asciiOnly) + st.keySep + Dump(e.value, st)
  }

  function DumpEntries(es: seq<Entry>, st: Style): string
    decreases es, 0
  {
    if es == [] then ""
    else if |es| == 1 then DumpEntry(es[0], st)
    else DumpEntry(es[0], st) + st.itemSep + DumpEntries(es[1..], st)
  }
}
