/**
 JSON documents as serde_json writes and reads them (sections 2 to 9 of RFC 8259).

 A document is a string in which every character stands for one byte: Rust strings are byte
 sequences and serde_json escapes them byte by byte.  The printer is the one behind `to_vec`
 (`Compact`) and `to_vec_pretty` (`Pretty`); the reader is the full grammar with free white space and
 every escape.  Numbers with a fraction or an exponent are refused by the reader, because no field of
 the documents that are read is a float and an unknown field is an error.
 */
module Json {
  import opened Wrappers

  datatype Json =
    | Null
    | Bool(b: bool)
    | Number(n: int)
    | String(s: string)
    | Array(items: seq<Json>)
    | Object(members: seq<Member>)

  datatype Member = Member(key: string, value: Json)

  datatype Layout = Compact | Pretty(depth: nat)

  // ---------------------------------------------------------------- printing

  const HEX: string := "0123456789abcdef"

  function Digit(d: nat): char
    requires d < 10
  {
    '0' + d as char
  }

  function Decimal(n: nat): string {
    if n < 10 then [Digit(n)] else Decimal(n / 10) + [Digit(n % 10)]
  }

  function PrintInt(n: int): string {
    if n < 0 then "-" + Decimal(-n) else Decimal(n)
  }

  function EscapeChar(c: char): string {
    if c == '\"' then "\\\""
    else if c == '\\' then "\\\\"
    else if c == 8 as char then "\\b"
    else if c == 9 as char then "\\t"
    else if c == 10 as char then "\\n"
    else if c == 12 as char then "\\f"
    else if c == 13 as char then "\\r"
    else if c < 32 as char then "\\u00" + [HEX[c as int / 16], HEX[c as int % 16]]
    else [c]
  }

  function EscapeText(s: string): string {
    if s == "" then "" else EscapeChar(s[0]) + EscapeText(s[1..])
  }

  function PrintText(s: string): string {
    "\"" + EscapeText(s) + "\""
  }

  function Spaces(n: nat): string {
    seq(n, _ => ' ')
  }

  function Break(l: Layout): string {
    if l.Compact? then "" else "\n" + Spaces(2 * l.depth)
  }

  function Colon(l: Layout): string {
    if l.Compact? then ":" else ": "
  }

  function Deeper(l: Layout): Layout {
    if l.Compact? then Compact else Pretty(l.depth + 1)
  }

  function Print(v: Json, l: Layout): string
    decreases v, 1
  {
    match v
    case Null => "null"
    case Bool(b) => if b then "true" else "false"
    case Number(n) => PrintInt(n)
    case String(s) => PrintText(s)
    case Array(items) =>
      if items == [] then "[]" else "[" + PrintItems(items, Deeper(l)) + Break(l) + "]"
    case Object(members) =>
      if members == [] then "{}" else "{" + PrintMembers(members, Deeper(l)) + Break(l) + "}"
  }

  function PrintItems(items: seq<Json>, l: Layout): string
    requires items != []
    decreases items, 0
  {
    Break(l) + Print(items[0], l) + (if |items| == 1 then "" else "," + PrintItems(items[1..], l))
  }

  function PrintMembers(members: seq<Member>, l: Layout): string
    requires members != []
    decreases members, 0
  {
    Break(l) + PrintText(members[0].key) + Colon(l) + Print(members[0].value, l)
    + (if |members| == 1 then "" else "," + PrintMembers(members[1..], l))
  }

  // ---------------------------------------------------------------- reading

  /** What a reader found, and the text after it. */
  datatype Parsed<+T> = Bad | Good(value: T, rest: string) {
    predicate IsFailure() { Bad? }

    function PropagateFailure<U>(): Parsed<U>
      requires Bad?
    {
      Bad
    }

    function Extract(): (T, string)
      requires Good?
    {
      (value, rest)
    }
  }

  predicate IsSpace(c: char) {
    c == ' ' || c == '\t' || c == '\n' || c == '\r'
  }

  predicate IsDigit(c: char) {
    '0' <= c <= '9'
  }

  function SkipSpace(s: string): (r: string)
    ensures |r| <= |s|
  {
    if s != "" && IsSpace(s[0]) then SkipSpace(s[1..]) else s
  }

  /** The value of a hexadecimal digit in either case. */
  function HexValue(c: char): (r: Option<nat>)
    ensures r.Some? ==> r.value < 16
  {
    if '0' <= c <= '9' then Some(c as int - '0' as int)
    else if 'a' <= c <= 'f' then Some(c as int - 'a' as int + 10)
    else if 'A' <= c <= 'F' then Some(c as int - 'A' as int + 10)
    else None
  }

  function ParseHex4(s: string): (r: Parsed<nat>)
    ensures r.Good? ==> |r.rest| < |s| && r.value < 0x10000
  {
    if |s| < 4 then Bad
    else if HexValue(s[0]).None? || HexValue(s[1]).None? || HexValue(s[2]).None? || HexValue(s[3]).None? then Bad
    else
      Good(4096 * HexValue(s[0]).value + 256 * HexValue(s[1]).value + 16 * HexValue(s[2]).value + HexValue(s[3]).value,
           s[4..])
  }

  /** The UTF-8 bytes of a code point (section 3 of RFC 3629). */
  function Utf8Bytes(c: nat): string
    requires c < 0x110000
  {
    if c < 0x80 then [c as char]
    else if c < 0x800 then [(0xC0 + c / 64) as char, (0x80 + c % 64) as char]
    else if c < 0x10000 then
      [(0xE0 + c / 4096) as char, (0x80 + c / 64 % 64) as char, (0x80 + c % 64) as char]
    else
      [(0xF0 + c / 262144) as char, (0x80 + c / 4096 % 64) as char, (0x80 + c / 64 % 64) as char,
       (0x80 + c % 64) as char]
  }

  /** `\uXXXX` after the `u`; a leading surrogate must be followed by an escaped trailing one. */
  function ParseUnicode(s: string): (r: Parsed<string>)
    ensures r.Good? ==> |r.rest| < |s|
  {
    var (unit, rest) :- ParseHex4(s);
    if 0xDC00 <= unit <= 0xDFFF then Bad
    else if 0xD800 <= unit <= 0xDBFF then
      if |rest| < 2 || rest[0] != '\\' || rest[1] != 'u' then Bad
      else
        var (low, rest2) :- ParseHex4(rest[2..]);
        if !(0xDC00 <= low <= 0xDFFF) then Bad
        else Good(Utf8Bytes(0x10000 + (unit - 0xD800) * 1024 + (low - 0xDC00)), rest2)
    else Good(Utf8Bytes(unit), rest)
  }

  /** An escape sequence after its backslash. */
  function ParseEscape(s: string): (r: Parsed<string>)
    ensures r.Good? ==> |r.rest| < |s|
  {
    if s == "" then Bad
    else if s[0] == '\"' || s[0] == '\\' || s[0] == '/' then Good([s[0]], s[1..])
    else if s[0] == 'b' then Good([8 as char], s[1..])
    else if s[0] == 't' then Good([9 as char], s[1..])
    else if s[0] == 'n' then Good([10 as char], s[1..])
    else if s[0] == 'f' then Good([12 as char], s[1..])
    else if s[0] == 'r' then Good([13 as char], s[1..])
    else if s[0] == 'u' then ParseUnicode(s[1..])
    else Bad
  }

  /** A string after its opening quote. */
  function ParseText(s: string): (r: Parsed<string>)
    ensures r.Good? ==> |r.rest| < |s|
    decreases |s|
  {
    if s == "" || s[0] < 32 as char then Bad
    else if s[0] == '\"' then Good("", s[1..])
    else if s[0] == '\\' then
      var (head, rest) :- ParseEscape(s[1..]);
      var (tail, rest2) :- ParseText(rest);
      Good(head + tail, rest2)
    else
      var (tail, rest) :- ParseText(s[1..]);
      Good([s[0]] + tail, rest)
  }

  /** Reads digits for as long as there are any. */
  function ParseDigits(acc: nat, s: string): (r: Parsed<nat>)
    ensures r.Good? && |r.rest| <= |s|
    decreases |s|
  {
    if s != "" && IsDigit(s[0]) then ParseDigits(10 * acc + (s[0] as int - '0' as int), s[1..])
    else Good(acc, s)
  }

  /** True when the text after a number cannot belong to it. */
  predicate NumberEnds(s: string) {
    s == "" || !(IsDigit(s[0]) || s[0] == '.' || s[0] == 'e' || s[0] == 'E')
  }

  function ParseNatural(s: string): (r: Parsed<nat>)
    ensures r.Good? ==> |r.rest| < |s|
  {
    if s == "" || !IsDigit(s[0]) then Bad
    else
      var (n, rest) :- if s[0] == '0' then Good(0, s[1..]) else ParseDigits(0, s);
      if !NumberEnds(rest) || |rest| >= |s| then Bad else Good(n, rest)
  }

  function ParseInt(s: string): (r: Parsed<int>)
    ensures r.Good? ==> |r.rest| < |s|
  {
    if s != "" && s[0] == '-' then
      var (n, rest) :- ParseNatural(s[1..]);
      if n == 0 then Bad else Good(-(n as int), rest)
    else
      var (n, rest) :- ParseNatural(s);
      Good(n as int, rest)
  }

  function ParseWord(s: string, word: string, v: Json): (r: Parsed<Json>)
    requires word != ""
    ensures r.Good? ==> |r.rest| < |s|
  {
    if word <= s then Good(v, s[|word|..]) else Bad
  }

  function ParseValue(s: string): (r: Parsed<Json>)
    ensures r.Good? ==> |r.rest| < |s|
    decreases |s|, 1
  {
    var t := SkipSpace(s);
    if t == "" then Bad
    else if t[0] == 'n' then ParseWord(t, "null", Null)
    else if t[0] == 't' then ParseWord(t, "true", Bool(true))
    else if t[0] == 'f' then ParseWord(t, "false", Bool(false))
    else if t[0] == '\"' then
      var (text, rest) :- ParseText(t[1..]);
      Good(String(text), rest)
    else if t[0] == '[' then
      var u := SkipSpace(t[1..]);
      if u != "" && u[0] == ']' then Good(Array([]), u[1..])
      else
        var (items, rest) :- ParseItems(t[1..]);
        Good(Array(items), rest)
    else if t[0] == '{' then
      var u := SkipSpace(t[1..]);
      if u != "" && u[0] == '}' then Good(Object([]), u[1..])
      else
        var (members, rest) :- ParseMembers(t[1..]);
        Good(Object(members), rest)
    else
      var (n, rest) :- ParseInt(t);
      Good(Number(n), rest)
  }

  /** One or more array elements and the closing bracket. */
  function ParseItems(s: string): (r: Parsed<seq<Json>>)
    ensures r.Good? ==> |r.rest| < |s|
    decreases |s|, 2
  {
    var (v, a) :- ParseValue(s);
    var b := SkipSpace(a);
    if b == "" then Bad
    else if b[0] == ']' then Good([v], b[1..])
    else if b[0] == ',' then
      var (more, rest) :- ParseItems(b[1..]);
      Good([v] + more, rest)
    else Bad
  }

  /** The key of a member and its colon. */
  function ParseKey(s: string): (r: Parsed<string>)
    ensures r.Good? ==> |r.rest| < |s|
  {
    var t := SkipSpace(s);
    if t == "" || t[0] != '\"' then Bad
    else
      var (key, a) :- ParseText(t[1..]);
      var b := SkipSpace(a);
      if b == "" || b[0] != ':' then Bad else Good(key, b[1..])
  }

  /** One or more object members and the closing brace. */
  function ParseMembers(s: string): (r: Parsed<seq<Member>>)
    ensures r.Good? ==> |r.rest| < |s|
    decreases |s|, 2
  {
    var (key, a) :- ParseKey(s);
    var (v, b) :- ParseValue(a);
    var c := SkipSpace(b);
    if c == "" then Bad
    else if c[0] == '}' then Good([Member(key, v)], c[1..])
    else if c[0] == ',' then
      var (more, rest) :- ParseMembers(c[1..]);
      Good([Member(key, v)] + more, rest)
    else Bad
  }

  /** A whole document: one value with nothing but white space after it. */
  function ParseDocument(s: string): Option<Json> {
    match ParseValue(s)
    case Bad => None
    case Good(v, rest) => if SkipSpace(rest) == "" then Some(v) else None
  }
}
