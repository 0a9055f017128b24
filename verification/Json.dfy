/** JSON values and the canonical text they are compared and hashed by. */
module Json {
  import opened Text
  import opened Keys

  /** What strict JSON decodes to. A float is known by its shortest rendering; a
      number too large for a float decodes to an infinite one. */
  datatype Json =
    | Null
    | Bool(b: bool)
    | Int(i: int)
    | Float(text: string)
    | Infinite(negative: bool)
    | Str(s: string)
    | Arr(items: seq<Json>)
    | Obj(fields: map<string, Json>)

  predicate NumberChar(c: char) {
    IsDigit(c) || c == '-' || c == '+' || c == '.' || c == 'e'
  }

  /** A float's rendering has a point or an exponent, which no integer has. */
  predicate FloatText(t: string) {
    (forall i :: 0 <= i < |t| ==> NumberChar(t[i])) && exists i :: 0 <= i < |t| && !IsDigit(t[i]) && t[i] != '-'
  }

  /** Every number in it is finite. */
  predicate Proper(j: Json) {
    match j
    case Float(text) => FloatText(text)
    case Infinite(_) => false
    case Arr(items) => forall i :: 0 <= i < |items| ==> Proper(items[i])
    case Obj(fields) => forall k :: k in fields ==> Proper(fields[k])
    case _ => true
  }

  // ------------------------------------------------------------------- strings

  function HexChar(d: nat): char
    requires d < 16
  {
    if d < 10 then '0' + d as char else 'a' + (d - 10) as char
  }

  function Hex4(n: nat): string
    requires n < 0x10000
  {
    [HexChar(n / 4096), HexChar(n / 256 % 16), HexChar(n / 16 % 16), HexChar(n % 16)]
  }

  function ShortEscape(c: char): string {
    if c == '"' then "\"" else if c == '\\' then "\\" else if c == '\n' then "n" else if c == '\r' then "r"
    else if c == '\t' then "t" else if c == 8 as char then "b" else if c == 12 as char then "f" else ""
  }

  /** Characters beyond the basic plane are escaped as a surrogate pair. */
  function UnicodeEscape(n: nat): string
    requires n < 0x110000
  {
    if n < 0x10000 then "\\u" + Hex4(n)
    else "\\u" + Hex4(0xD800 + (n - 0x10000) / 0x400) + ("\\u" + Hex4(0xDC00 + (n - 0x10000) % 0x400))
  }

  /** One character inside a string: the scorer escapes everything that is not
      printable ASCII, the host only what JSON requires. */
  function Escape(ascii: bool, c: char): string {
    if ShortEscape(c) != "" then "\\" + ShortEscape(c)
    else if c < ' ' || (ascii && c > '~') then UnicodeEscape(c as int)
    else [c]
  }

  function EscapeAll(ascii: bool, s: string): string {
    if s == "" then "" else Escape(ascii, s[0]) + EscapeAll(ascii, s[1..])
  }

  function Quote(ascii: bool, s: string): string {
    "\"" + EscapeAll(ascii, s) + "\""
  }

  // -------------------------------------------------------------------- values

  function Number(i: int): string {
    if i < 0 then "-" + Decimal(-i) else Decimal(i)
  }

  /** Sorted keys and no insignificant whitespace. */
  function Canonical(ascii: bool, j: Json): string
    decreases j, 1, 0
  {
    match j
    case Null => "null"
    case Bool(b) => if b then "true" else "false"
    case Int(i) => Number(i)
    case Float(text) => text
    case Infinite(negative) => if negative then "-Infinity" else "Infinity"
    case Str(s) => Quote(ascii, s)
    case Arr(items) => "[" + Items(ascii, items)
    case Obj(fields) =>
      SortedKeysFacts(fields.Keys);
      "{" + Members(ascii, j, SortedKeys(fields.Keys))
  }

  function Items(ascii: bool, items: seq<Json>): string
    decreases items, 0, 0
  {
    if items == [] then "]" else Canonical(ascii, items[0]) + ItemsAfter(ascii, items[1..])
  }

  function ItemsAfter(ascii: bool, items: seq<Json>): string
    decreases items, 1, 0
  {
    if items == [] then "]" else "," + Items(ascii, items)
  }

  function Members(ascii: bool, j: Json, keys: seq<string>): string
    requires j.Obj? && forall k :: k in keys ==> k in j.fields
    decreases j, 0, 2 * |keys|
  {
    if keys == [] then "}"
    else Quote(ascii, keys[0]) + ":" + (Canonical(ascii, j.fields[keys[0]]) + MembersAfter(ascii, j, keys[1..]))
  }

  function MembersAfter(ascii: bool, j: Json, keys: seq<string>): string
    requires j.Obj? && forall k :: k in keys ==> k in j.fields
    decreases j, 0, 2 * |keys| + 1
  {
    if keys == [] then "}" else "," + Members(ascii, j, keys)
  }
}
