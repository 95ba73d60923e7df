/**
 * The JSON text format as the browser's `JSON.stringify` and `JSON.parse`
 * apply it to the values this application keeps in local storage.
 *
 * `Encode` is total; `Decode` is a parser that answers `None` for text that is
 * not JSON (the "corrupted record" case of the storage accessor). Numbers are
 * integers (amounts are kept in cents), and a `Date` object is a value of its
 * own, `JDate`, which `JSON.stringify` writes as its ISO-8601 text.
 */
module Json {
  import opened Wrappers

  datatype Json =
    | JNull
    | JBool(b: bool)
    | JNum(n: int)
    | JStr(s: string)
    | JArr(items: seq<Json>)
    | JObj(members: seq<Member>)
    | JDate(iso: string)  // a Date object; its text is what toISOString gives

  datatype Member = Member(key: string, val: Json)

  // ---------------------------------------------------------------------------
  // Characters

  predicate IsDigit(c: char) { '0' <= c <= '9' }

  /** The white space JSON allows between tokens. */
  predicate IsWs(c: char) { c == ' ' || c == '\t' || c == '\n' || c == '\r' }

  /** The characters a value can start with. */
  predicate StartsValue(c: char)
  {
    c == 'n' || c == 't' || c == 'f' || c == '"' || c == '[' || c == '{' || c == '-' || IsDigit(c)
  }

  function DigitChar(d: nat): (c: char)
    requires d < 10
    ensures IsDigit(c) && c as int - '0' as int == d
  {
    ('0' as int + d) as char
  }

  /** Lower-case hexadecimal digit, as JSON.stringify writes `\u00XX` escapes. */
  function HexChar(d: nat): char
    requires d < 16
  {
    if d < 10 then DigitChar(d) else ('a' as int + d - 10) as char
  }

  function HexValue(c: char): (r: Option<nat>)
    ensures r.Some? ==> r.value < 16
  {
    if '0' <= c <= '9' then Some(c as int - '0' as int)
    else if 'a' <= c <= 'f' then Some(c as int - 'a' as int + 10)
    else if 'A' <= c <= 'F' then Some(c as int - 'A' as int + 10)
    else None
  }

  // ---------------------------------------------------------------------------
  // Encoding: JSON.stringify

  /** Decimal digits of a natural number, most significant first. */
  function NatText(n: nat): (r: string)
    ensures r != []
    ensures forall i :: 0 <= i < |r| ==> IsDigit(r[i])
  {
    if n < 10 then [DigitChar(n)] else NatText(n / 10) + [DigitChar(n % 10)]
  }

  function IntText(n: int): string
  {
    if n < 0 then "-" + NatText(-n) else NatText(n)
  }

  /** How JSON.stringify writes one character inside a string literal. */
  function EscapeChar(c: char): string
  {
    if c == '"' then "\\\""
    else if c == '\\' then "\\\\"
    else if c == '\U{8}' then "\\b"
    else if c == '\U{C}' then "\\f"
    else if c == '\n' then "\\n"
    else if c == '\r' then "\\r"
    else if c == '\t' then "\\t"
    else if c < ' ' then "\\u00" + [HexChar(c as int / 16), HexChar(c as int % 16)]
    else [c]
  }

  function EscapeText(s: string): string
  {
    if s == [] then [] else EscapeChar(s[0]) + EscapeText(s[1..])
  }

  function Quote(s: string): string
  {
    "\"" + EscapeText(s) + "\""
  }

  /** JSON.stringify: the text always starts a value, never with white space. */
  function Encode(j: Json): (r: string)
    ensures r != [] && StartsValue(r[0])
  {
    match j
    case JNull => "null"
    case JBool(b) => if b then "true" else "false"
    case JNum(n) => IntText(n)
    case JStr(s) => Quote(s)
    case JDate(iso) => Quote(iso)
    case JArr(items) => "[" + EncodeItems(items) + "]"
    case JObj(ms) => "{" + EncodeMembers(ms) + "}"
  }

  /** The elements of an array, comma separated. */
  function EncodeItems(items: seq<Json>): string
  {
    if items == [] then ""
    else if |items| == 1 then Encode(items[0])
    else Encode(items[0]) + "," + EncodeItems(items[1..])
  }

  /** The members of an object, `"key":value`, comma separated. */
  function EncodeMembers(ms: seq<Member>): string
  {
    if ms == [] then ""
    else if |ms| == 1 then Quote(ms[0].key) + ":" + Encode(ms[0].val)
    else Quote(ms[0].key) + ":" + Encode(ms[0].val) + "," + EncodeMembers(ms[1..])
  }

  /** What a stored value looks like once it has been written as text and read
      back without a reviver: every Date has become its ISO string. */
  function Erase(j: Json): Json
  {
    match j
    case JDate(iso) => JStr(iso)
    case JArr(items) => JArr(EraseItems(items))
    case JObj(ms) => JObj(EraseMembers(ms))
    case _ => j
  }

  function EraseItems(items: seq<Json>): (r: seq<Json>)
    ensures |r| == |items|
  {
    if items == [] then [] else [Erase(items[0])] + EraseItems(items[1..])
  }

  function EraseMembers(ms: seq<Member>): (r: seq<Member>)
    ensures |r| == |ms|
  {
    if ms == [] then [] else [Member(ms[0].key, Erase(ms[0].val))] + EraseMembers(ms[1..])
  }

  // ---------------------------------------------------------------------------
  // Decoding: JSON.parse. Each parser takes the remaining text and answers the
  // value it read together with the text that follows it.

  function SkipWs(s: string): (r: string)
    ensures |r| <= |s| && r == s[|s| - |r|..]
    ensures r == [] || !IsWs(r[0])
  {
    if s != [] && IsWs(s[0]) then SkipWs(s[1..]) else s
  }

  /** The text after a backslash inside a string literal. */
  function ParseEscape(s: string): (r: Option<(char, string)>)
    ensures r.Some? ==> |r.value.1| < |s|
  {
    if s == [] then None
    else if s[0] == '"' then Some(('"', s[1..]))
    else if s[0] == '\\' then Some(('\\', s[1..]))
    else if s[0] == '/' then Some(('/', s[1..]))
    else if s[0] == 'b' then Some(('\U{8}', s[1..]))
    else if s[0] == 'f' then Some(('\U{C}', s[1..]))
    else if s[0] == 'n' then Some(('\n', s[1..]))
    else if s[0] == 'r' then Some(('\r', s[1..]))
    else if s[0] == 't' then Some(('\t', s[1..]))
    else if s[0] == 'u' && |s| >= 5 then
      match (HexValue(s[1]), HexValue(s[2]), HexValue(s[3]), HexValue(s[4]))
      case (Some(a), Some(b), Some(c), Some(d)) =>
        var v := ((a * 16 + b) * 16 + c) * 16 + d;
        // a lone UTF-16 surrogate is not a character of its own
        if 0xD800 <= v < 0xE000 then None else Some((v as char, s[5..]))
      case _ => None
    else None
  }

  /** One character of a string literal, escaped or not. */
  function ParseChar(s: string): (r: Option<(char, string)>)
    requires s != []
    ensures r.Some? ==> |r.value.1| < |s|
  {
    if s[0] == '\\' then ParseEscape(s[1..])
    else if s[0] < ' ' then None  // raw control characters are not allowed
    else Some((s[0], s[1..]))
  }

  /** The text after the opening quote of a string literal. */
  function ParseString(s: string): (r: Option<(string, string)>)
    ensures r.Some? ==> |r.value.1| < |s|
    decreases |s|
  {
    if s == [] then None
    else if s[0] == '"' then Some(([], s[1..]))
    else
      match ParseChar(s)
      case None => None
      case Some((c, t)) =>
        match ParseString(t)
        case None => None
        case Some((u, rest)) => Some(([c] + u, rest))
  }

  /** The number of leading decimal digits. */
  function DigitRun(s: string): (k: nat)
    ensures k <= |s|
    ensures forall i :: 0 <= i < k ==> IsDigit(s[i])
    ensures k == |s| || !IsDigit(s[k])
  {
    if s != [] && IsDigit(s[0]) then 1 + DigitRun(s[1..]) else 0
  }

  function DigitsValue(d: string): nat
    requires forall i :: 0 <= i < |d| ==> IsDigit(d[i])
  {
    if d == [] then 0
    else
      assert IsDigit(d[|d| - 1]);
      DigitsValue(d[..|d| - 1]) * 10 + (d[|d| - 1] as int - '0' as int)
  }

  /** An unsigned integer; JSON forbids leading zeros, so a `0` stands alone. */
  function ParseNat(s: string): (r: Option<(nat, string)>)
    ensures r.Some? ==> |r.value.1| < |s|
  {
    var k := DigitRun(s);
    if k == 0 then None
    else if s[0] == '0' then Some((0, s[1..]))
    else Some((DigitsValue(s[..k]), s[k..]))
  }

  function ParseNumber(s: string): (r: Option<(int, string)>)
    ensures r.Some? ==> |r.value.1| < |s|
  {
    if s != [] && s[0] == '-' then
      match ParseNat(s[1..])
      case None => None
      case Some((n, rest)) => var v: int := -(n as int); Some((v, rest))
    else
      match ParseNat(s)
      case None => None
      case Some((n, rest)) => Some((n, rest))
  }

  /** A value, after any white space. */
  function ParseValue(s: string): (r: Option<(Json, string)>)
    ensures r.Some? ==> |r.value.1| < |s|
    decreases |s|, 1
  {
    var t := SkipWs(s);
    if t == [] then None else ParseToken(t)
  }

  /** A value, told apart by its first character. */
  function ParseToken(t: string): (r: Option<(Json, string)>)
    requires t != []
    ensures r.Some? ==> |r.value.1| < |t|
    decreases |t|, 0
  {
    if t[0] == 'n' then
      if |t| >= 4 && t[..4] == "null" then Some((JNull, t[4..])) else None
    else if t[0] == 't' then
      if |t| >= 4 && t[..4] == "true" then Some((JBool(true), t[4..])) else None
    else if t[0] == 'f' then
      if |t| >= 5 && t[..5] == "false" then Some((JBool(false), t[5..])) else None
    else if t[0] == '"' then
      match ParseString(t[1..])
      case None => None
      case Some((str, rest)) => Some((JStr(str), rest))
    else if t[0] == '[' then AsArray(ParseArray(t[1..]))
    else if t[0] == '{' then AsObject(ParseObject(t[1..]))
    else
      match ParseNumber(t)
      case None => None
      case Some((n, rest)) => Some((JNum(n), rest))
  }

  function AsArray(r: Option<(seq<Json>, string)>): (a: Option<(Json, string)>)
    ensures a.Some? <==> r.Some?
    ensures a.Some? ==> a.value == (JArr(r.value.0), r.value.1)
  {
    match r
    case None => None
    case Some((items, rest)) => Some((JArr(items), rest))
  }

  function AsObject(r: Option<(seq<Member>, string)>): (a: Option<(Json, string)>)
    ensures a.Some? <==> r.Some?
    ensures a.Some? ==> a.value == (JObj(r.value.0), r.value.1)
  {
    match r
    case None => None
    case Some((ms, rest)) => Some((JObj(ms), rest))
  }

  /** The text after `[`. */
  function ParseArray(s: string): (r: Option<(seq<Json>, string)>)
    ensures r.Some? ==> |r.value.1| < |s|
    decreases |s|, 3
  {
    var t := SkipWs(s);
    if t != [] && t[0] == ']' then Some(([], t[1..])) else ParseItems(t)
  }

  /** One or more elements followed by `]`. */
  function ParseItems(s: string): (r: Option<(seq<Json>, string)>)
    ensures r.Some? ==> |r.value.1| < |s|
    decreases |s|, 2
  {
    match ParseValue(s)
    case None => None
    case Some((v, rest)) =>
      var u := SkipWs(rest);
      if u == [] then None
      else if u[0] == ']' then Some(([v], u[1..]))
      else if u[0] == ',' then Prepend(v, ParseItems(u[1..]))
      else None
  }

  /** Puts one more element in front of what the rest of a list parsed to. */
  function Prepend<T>(x: T, r: Option<(seq<T>, string)>): (p: Option<(seq<T>, string)>)
    ensures p.Some? <==> r.Some?
    ensures p.Some? ==> p.value == ([x] + r.value.0, r.value.1)
  {
    match r
    case None => None
    case Some((xs, rest)) => Some(([x] + xs, rest))
  }

  /** The text after `{`. */
  function ParseObject(s: string): (r: Option<(seq<Member>, string)>)
    ensures r.Some? ==> |r.value.1| < |s|
    decreases |s|, 3
  {
    var t := SkipWs(s);
    if t != [] && t[0] == '}' then Some(([], t[1..])) else ParseMembers(t)
  }

  /** One or more `"key": value` members followed by `}`. */
  function ParseMembers(s: string): (r: Option<(seq<Member>, string)>)
    ensures r.Some? ==> |r.value.1| < |s|
    decreases |s|, 2
  {
    if s == [] || s[0] != '"' then None
    else
      match ParseString(s[1..])
      case None => None
      case Some((key, afterKey)) =>
        var u := SkipWs(afterKey);
        if u == [] || u[0] != ':' then None
        else
          match ParseValue(u[1..])
          case None => None
          case Some((v, rest)) =>
            var w := SkipWs(rest);
            if w == [] then None
            else if w[0] == '}' then Some(([Member(key, v)], w[1..]))
            else if w[0] == ',' then Prepend(Member(key, v), ParseMembers(SkipWs(w[1..])))
            else None
  }

  /** JSON.parse without a reviver: one value, surrounded by nothing but white
      space. Blank text, the empty string included, is not JSON. */
  function Decode(s: string): (r: Option<Json>)
    ensures (forall i :: 0 <= i < |s| ==> IsWs(s[i])) ==> r == None
  {
    match ParseValue(s)
    case None => None
    case Some((v, rest)) => if SkipWs(rest) == [] then Some(v) else None
  }

  // ---------------------------------------------------------------------------
  // Reading a decoded value the way JavaScript code does

  /** Property access `j.key`; `None` is `undefined`. Of repeated keys the last
      one wins, as it does in JSON.parse. */
  function Get(j: Json, key: string): Option<Json>
  {
    if j.JObj? then Lookup(j.members, key) else None
  }

  function Lookup(ms: seq<Member>, key: string): (r: Option<Json>)
    ensures r.Some? <==> exists i :: 0 <= i < |ms| && ms[i].key == key
  {
    if ms == [] then None
    else if ms[|ms| - 1].key == key then Some(ms[|ms| - 1].val)
    else Lookup(ms[..|ms| - 1], key)
  }

  /** JavaScript truthiness of a JSON value. */
  predicate Truthy(j: Json)
  {
    match j
    case JNull => false
    case JBool(b) => b
    case JNum(n) => n != 0
    case JStr(s) => s != []
    case _ => true
  }
}
