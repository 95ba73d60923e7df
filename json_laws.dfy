/**
 * Laws of the JSON codec: text written by `Encode` is read back by `Decode`
 * as the same value with every Date turned into its ISO string, and plain
 * strings are written as themselves between quotes.
 */
module JsonLaws {
  import opened Wrappers
  import opened Json

  // ---------------------------------------------------------------------------
  // Numbers

  lemma {:induction false} NatTextValue(n: nat)
    ensures DigitsValue(NatText(n)) == n
  {
    if n >= 10 {
      NatTextValue(n / 10);
      var d := NatText(n / 10) + [DigitChar(n % 10)];
      assert d[..|d| - 1] == NatText(n / 10);
    }
  }

  /** Only zero is written with a leading `0`. */
  lemma {:induction false} NatTextLead(n: nat)
    ensures NatText(n)[0] == '0' ==> n == 0
  {
    if n >= 10 {
      NatTextLead(n / 10);
    }
  }

  lemma {:induction false} DigitRunOf(d: string, rest: string)
    requires forall i :: 0 <= i < |d| ==> IsDigit(d[i])
    requires rest == [] || !IsDigit(rest[0])
    ensures DigitRun(d + rest) == |d|
  {
    if d != [] {
      assert (d + rest)[1..] == d[1..] + rest;
      DigitRunOf(d[1..], rest);
    } else {
      assert d + rest == rest;
    }
  }

  lemma ParseNatText(n: nat, rest: string)
    requires rest == [] || !IsDigit(rest[0])
    ensures ParseNat(NatText(n) + rest) == Some((n, rest))
  {
    var d := NatText(n);
    var s := d + rest;
    DigitRunOf(d, rest);
    NatTextLead(n);
    NatTextValue(n);
    assert s[..|d|] == d && s[|d|..] == rest;
    if s[0] == '0' {
      assert n == 0 && d == "0";
    }
  }

  lemma ParseNegative(t: string, n: nat, rest: string)
    requires ParseNat(t) == Some((n, rest))
    ensures ParseNumber("-" + t) == Some((-(n as int), rest))
  {
    AfterHead('-', t);
  }

  lemma ParseNonNegative(t: string, n: nat, rest: string)
    requires ParseNat(t) == Some((n, rest))
    ensures ParseNumber(t) == Some((n, rest))
  {
    assert DigitRun(t) > 0;
  }

  lemma ParseIntText(n: int, rest: string)
    requires rest == [] || !IsDigit(rest[0])
    ensures ParseNumber(IntText(n) + rest) == Some((n, rest))
  {
    if n < 0 {
      ParseNatText(-n, rest);
      assert IntText(n) + rest == "-" + (NatText(-n) + rest);
      ParseNegative(NatText(-n) + rest, -n, rest);
    } else {
      ParseNatText(n, rest);
      assert IntText(n) == NatText(n);
      ParseNonNegative(NatText(n) + rest, n, rest);
    }
  }

  // ---------------------------------------------------------------------------
  // Strings

  lemma HexRoundTrip(d: nat)
    requires d < 16
    ensures HexValue(HexChar(d)) == Some(d)
  {
  }

  /** Each escape JSON.stringify writes is read back as the character it stands for. */
  lemma EscapeCharParses(c: char, t: string)
    ensures EscapeChar(c) != [] && EscapeChar(c)[0] != '"'
    ensures ParseChar(EscapeChar(c) + t) == Some((c, t))
  {
    var s := EscapeChar(c) + t;
    if c == '"' || c == '\\' || c == '\U{8}' || c == '\U{C}' || c == '\n' || c == '\r' || c == '\t' {
      assert s[1..][1..] == t;
    } else if c < ' ' {
      var hi, lo := c as int / 16, c as int % 16;
      HexRoundTrip(hi);
      HexRoundTrip(lo);
      var e := s[1..];
      assert e[0] == 'u' && e[1] == '0' && e[2] == '0' && e[3] == HexChar(hi) && e[4] == HexChar(lo);
      assert e[5..] == t;
      assert ((0 * 16 + 0) * 16 + hi) * 16 + lo == c as int;
    } else {
      assert s[1..] == t;
    }
  }

  lemma {:induction false} EscapeTextParses(s: string, rest: string)
    ensures ParseString(EscapeText(s) + "\"" + rest) == Some((s, rest))
  {
    var text := EscapeText(s) + "\"" + rest;
    if s == [] {
      assert text == "\"" + rest;
      assert text[1..] == rest;
    } else {
      var tail := EscapeText(s[1..]) + "\"" + rest;
      assert text == EscapeChar(s[0]) + tail;
      EscapeCharParses(s[0], tail);
      EscapeTextParses(s[1..], rest);
      assert [s[0]] + s[1..] == s;
    }
  }

  /** A string none of whose characters need escaping is written as itself in quotes. */
  lemma {:induction false} PlainTextUnescaped(s: string)
    requires forall i :: 0 <= i < |s| ==> s[i] != '"' && s[i] != '\\' && s[i] >= ' '
    ensures EscapeText(s) == s
  {
    if s != [] {
      PlainTextUnescaped(s[1..]);
      assert [s[0]] + s[1..] == s;
    }
  }

  lemma PlainTextQuoted(s: string)
    requires forall i :: 0 <= i < |s| ==> s[i] != '"' && s[i] != '\\' && s[i] >= ' '
    ensures Encode(JStr(s)) == "\"" + s + "\""
  {
    PlainTextUnescaped(s);
  }

  // ---------------------------------------------------------------------------
  // Values

  /** Text that starts with a token is read as that token. */
  lemma ValueIsToken(t: string)
    requires t != [] && !IsWs(t[0])
    ensures ParseValue(t) == ParseToken(t)
  {
  }

  lemma QuotedParses(s: string, rest: string)
    ensures ParseToken(Quote(s) + rest) == Some((JStr(s), rest))
  {
    var text := Quote(s) + rest;
    assert text[0] == '"';
    assert text[1..] == EscapeText(s) + "\"" + rest;
    EscapeTextParses(s, rest);
  }

  lemma NumberParses(n: int, rest: string)
    requires rest == [] || !IsDigit(rest[0])
    ensures ParseToken(IntText(n) + rest) == Some((JNum(n), rest))
  {
    var text := IntText(n) + rest;
    ParseIntText(n, rest);
    if n < 0 {
      assert text[0] == '-';
    } else {
      assert text == NatText(n) + rest;
      assert IsDigit(text[0]);
    }
  }

  lemma LiteralParses(j: Json, rest: string)
    requires j.JNull? || j.JBool?
    ensures ParseToken(Encode(j) + rest) == Some((j, rest))
  {
    var text := Encode(j) + rest;
    if j.JNull? {
      assert text[..4] == "null" && text[4..] == rest;
    } else if j.b {
      assert text[..4] == "true" && text[4..] == rest;
    } else {
      assert text[..5] == "false" && text[5..] == rest;
    }
  }

  /** Text written by Encode, followed by anything that cannot continue a number,
      is read back as the erased value and leaves that continuation. */
  lemma {:induction false} ParseEncoded(j: Json, rest: string)
    requires rest == [] || !IsDigit(rest[0])
    ensures ParseValue(Encode(j) + rest) == Some((Erase(j), rest))
    decreases j, 3
  {
    ValueIsToken(Encode(j) + rest);
    match j {
      case JNull => LiteralParses(j, rest);
      case JBool(_) => LiteralParses(j, rest);
      case JNum(n) => NumberParses(n, rest);
      case JStr(s) => QuotedParses(s, rest);
      case JDate(iso) => QuotedParses(iso, rest);
      case JArr(items) => ParseEncodedArray(items, rest);
      case JObj(ms) => ParseEncodedObject(ms, rest);
    }
  }

  // Facts about concatenation, stated over plain variables so that the solver
  // does not look inside the encodings while it proves them.

  lemma Regroup(a: string, b: string, c: string, d: string)
    ensures a + b + c + d == a + (b + (c + d))
  {
  }

  lemma Regroup5(a: string, b: string, c: string, d: string, e: string, f: string)
    ensures a + b + c + d + e + f == a + (b + (c + (d + (e + f))))
  {
  }

  lemma Head(a: string, b: string)
    requires a != []
    ensures (a + b) != [] && (a + b)[0] == a[0]
  {
  }

  lemma AfterHead(c: char, b: string)
    ensures ([c] + b) != [] && ([c] + b)[0] == c && ([c] + b)[1..] == b
  {
  }

  lemma NoLeadingWs(t: string)
    requires t != [] && !IsWs(t[0])
    ensures SkipWs(t) == t
  {
  }

  lemma EncodeItemsStart(items: seq<Json>)
    requires items != []
    ensures EncodeItems(items) != [] && StartsValue(EncodeItems(items)[0])
  {
    var first := Encode(items[0]);
    if |items| > 1 {
      var others := "," + EncodeItems(items[1..]);
      assert EncodeItems(items) == first + others;
      Head(first, others);
    } else {
      assert EncodeItems(items) == first;
    }
  }

  lemma EncodeMembersStart(ms: seq<Member>)
    requires ms != []
    ensures EncodeMembers(ms) != [] && EncodeMembers(ms)[0] == '"'
  {
  }

  lemma {:induction false} ParseEncodedArray(items: seq<Json>, rest: string)
    ensures ParseToken("[" + EncodeItems(items) + "]" + rest) == Some((JArr(EraseItems(items)), rest))
    decreases items, 2
  {
    var e := EncodeItems(items);
    var tail := "]" + rest;
    var inner := e + tail;
    Regroup("[", e, "]", rest);
    ArrayToken(inner);
    if items == [] {
      assert inner == tail;
      EmptyArray(rest);
    } else {
      AfterHead(']', rest);
      ParseEncodedItems(items, tail);
      EncodeItemsStart(items);
      Head(e, tail);
      NonEmptyArray(inner);
    }
  }

  lemma ArrayToken(inner: string)
    ensures ParseToken("[" + inner) == AsArray(ParseArray(inner))
  {
    AfterHead('[', inner);
  }

  lemma EmptyArray(rest: string)
    ensures ParseArray("]" + rest) == Some(([], rest))
  {
    AfterHead(']', rest);
    assert SkipWs("]" + rest) == "]" + rest;
  }

  lemma NonEmptyArray(inner: string)
    requires inner != [] && StartsValue(inner[0])
    ensures ParseArray(inner) == ParseItems(inner)
  {
    assert SkipWs(inner) == inner;
  }

  lemma ObjectToken(inner: string)
    ensures ParseToken("{" + inner) == AsObject(ParseObject(inner))
  {
    AfterHead('{', inner);
  }

  lemma EmptyObject(rest: string)
    ensures ParseObject("}" + rest) == Some(([], rest))
  {
    AfterHead('}', rest);
    assert SkipWs("}" + rest) == "}" + rest;
  }

  lemma NonEmptyObject(inner: string)
    requires inner != [] && inner[0] == '"'
    ensures ParseObject(inner) == ParseMembers(inner)
  {
    assert SkipWs(inner) == inner;
  }

  lemma {:induction false} ParseEncodedObject(ms: seq<Member>, rest: string)
    ensures ParseToken("{" + EncodeMembers(ms) + "}" + rest) == Some((JObj(EraseMembers(ms)), rest))
    decreases ms, 2
  {
    var e := EncodeMembers(ms);
    var tail := "}" + rest;
    var inner := e + tail;
    Regroup("{", e, "}", rest);
    ObjectToken(inner);
    if ms == [] {
      assert inner == tail;
      EmptyObject(rest);
    } else {
      AfterHead('}', rest);
      ParseEncodedMembers(ms, tail);
      EncodeMembersStart(ms);
      Head(e, tail);
      NonEmptyObject(inner);
    }
  }

  /** How ParseItems continues once it has read one element. */
  lemma ItemsStep(s: string, v: Json, after: string)
    requires ParseValue(s) == Some((v, after))
    requires after != [] && !IsWs(after[0])
    ensures after[0] == ']' ==> ParseItems(s) == Some(([v], after[1..]))
    ensures after[0] == ',' ==> ParseItems(s) == Prepend(v, ParseItems(after[1..]))
  {
    assert SkipWs(after) == after;
  }

  lemma {:induction false} ParseEncodedItems(items: seq<Json>, rest: string)
    requires items != []
    requires rest != [] && rest[0] == ']'
    ensures ParseItems(EncodeItems(items) + rest) == Some((EraseItems(items), rest[1..]))
    decreases items, 1
  {
    if |items| == 1 {
      ParseEncoded(items[0], rest);
      SingleItem(items, rest);
    } else {
      ParseEncodedItemList(items, rest);
    }
  }

  lemma SingleItem(items: seq<Json>, rest: string)
    requires |items| == 1
    requires ParseValue(Encode(items[0]) + rest) == Some((Erase(items[0]), rest))
    requires rest != [] && rest[0] == ']'
    ensures ParseItems(EncodeItems(items) + rest) == Some((EraseItems(items), rest[1..]))
  {
    var j := items[0];
    assert items == [j];
    OneItem(j);
    ItemsStep(Encode(j) + rest, Erase(j), rest);
  }

  lemma OneItem(j: Json)
    ensures EncodeItems([j]) == Encode(j)
    ensures EraseItems([j]) == [Erase(j)]
  {
    assert [j][1..] == [];
  }

  lemma {:induction false} ParseEncodedItemList(items: seq<Json>, rest: string)
    requires |items| > 1
    requires rest != [] && rest[0] == ']'
    ensures ParseItems(EncodeItems(items) + rest) == Some((EraseItems(items), rest[1..]))
    decreases items, 0
  {
    var first := Encode(items[0]);
    var others := EncodeItems(items[1..]);
    var tail := others + rest;
    var after := "," + tail;
    assert EncodeItems(items) == first + "," + others;
    Regroup(first, ",", others, rest);
    AfterHead(',', tail);
    ParseEncoded(items[0], after);
    ParseEncodedItems(items[1..], rest);
    ItemsStep(first + after, Erase(items[0]), after);
  }

  lemma QuotedTail(e: string, x: string)
    ensures ("\"" + e + "\"" + x)[1..] == e + "\"" + x
  {
  }

  /** The key of a member and its colon; what follows is the value. */
  lemma MemberHead(key: string, valueText: string)
    ensures ParseString((Quote(key) + (":" + valueText))[1..]) == Some((key, ":" + valueText))
  {
    QuotedTail(EscapeText(key), ":" + valueText);
    EscapeTextParses(key, ":" + valueText);
  }

  /** How ParseMembers reads one member and continues, given how its key parses. */
  lemma MembersStepAt(text: string, key: string, v: Json, valueText: string, after: string)
    requires text != [] && text[0] == '"'
    requires ParseString(text[1..]) == Some((key, ":" + valueText))
    requires ParseValue(valueText) == Some((v, after))
    requires after != [] && !IsWs(after[0])
    ensures after[0] == '}' ==> ParseMembers(text) == Some(([Member(key, v)], after[1..]))
    ensures after[0] == ',' ==> ParseMembers(text) == Prepend(Member(key, v), ParseMembers(SkipWs(after[1..])))
  {
    AfterHead(':', valueText);
    NoLeadingWs(":" + valueText);
    NoLeadingWs(after);
  }

  lemma MembersStep(key: string, v: Json, valueText: string, after: string)
    requires ParseValue(valueText) == Some((v, after))
    requires after != [] && !IsWs(after[0])
    ensures after[0] == '}' ==>
      ParseMembers(Quote(key) + (":" + valueText)) == Some(([Member(key, v)], after[1..]))
    ensures after[0] == ',' ==>
      ParseMembers(Quote(key) + (":" + valueText)) == Prepend(Member(key, v), ParseMembers(SkipWs(after[1..])))
  {
    Head(Quote(key), ":" + valueText);
    MemberHead(key, valueText);
    MembersStepAt(Quote(key) + (":" + valueText), key, v, valueText, after);
  }

  lemma SingleMemberText(m: Member, rest: string)
    requires ParseValue(Encode(m.val) + rest) == Some((Erase(m.val), rest))
    requires rest != [] && rest[0] == '}'
    ensures ParseMembers(Quote(m.key) + ":" + Encode(m.val) + rest) == Some(([Member(m.key, Erase(m.val))], rest[1..]))
  {
    Regroup(Quote(m.key), ":", Encode(m.val), rest);
    MembersStep(m.key, Erase(m.val), Encode(m.val) + rest, rest);
  }

  lemma SingleMember(ms: seq<Member>, rest: string)
    requires |ms| == 1
    requires ParseValue(Encode(ms[0].val) + rest) == Some((Erase(ms[0].val), rest))
    requires rest != [] && rest[0] == '}'
    ensures ParseMembers(EncodeMembers(ms) + rest) == Some((EraseMembers(ms), rest[1..]))
  {
    var m := ms[0];
    assert ms == [m];
    OneMember(m);
    SingleMemberText(m, rest);
  }

  lemma OneMember(m: Member)
    ensures EncodeMembers([m]) == Quote(m.key) + ":" + Encode(m.val)
    ensures EraseMembers([m]) == [Member(m.key, Erase(m.val))]
  {
    assert [m][1..] == [];
  }

  lemma {:induction false} ParseEncodedMembers(ms: seq<Member>, rest: string)
    requires ms != []
    requires rest != [] && rest[0] == '}'
    ensures ParseMembers(EncodeMembers(ms) + rest) == Some((EraseMembers(ms), rest[1..]))
    decreases ms, 1
  {
    if |ms| == 1 {
      ParseEncoded(ms[0].val, rest);
      SingleMember(ms, rest);
    } else {
      ParseEncodedMemberList(ms, rest);
    }
  }

  lemma {:induction false} ParseEncodedMemberList(ms: seq<Member>, rest: string)
    requires |ms| > 1
    requires rest != [] && rest[0] == '}'
    ensures ParseMembers(EncodeMembers(ms) + rest) == Some((EraseMembers(ms), rest[1..]))
    decreases ms, 0
  {
    var m := ms[0];
    var k := Quote(m.key);
    var first := Encode(m.val);
    var others := EncodeMembers(ms[1..]);
    var tail := others + rest;
    var after := "," + tail;
    assert EncodeMembers(ms) == k + ":" + first + "," + others;
    Regroup5(k, ":", first, ",", others, rest);
    AfterHead(',', tail);
    ParseEncoded(m.val, after);
    MembersStep(m.key, Erase(m.val), first + after, after);
    ParseEncodedMembers(ms[1..], rest);
    EncodeMembersStart(ms[1..]);
    Head(others, rest);
    NoLeadingWs(tail);
    assert EraseMembers(ms) == [Member(m.key, Erase(m.val))] + EraseMembers(ms[1..]);
  }

  /** JSON.parse(JSON.stringify(v)) gives back v with its Dates as ISO strings. */
  lemma DecodeEncode(j: Json)
    ensures Decode(Encode(j)) == Some(Erase(j))
  {
    ParseEncoded(j, []);
    assert Encode(j) + [] == Encode(j);
  }

  /** Example: some text is not JSON at all: the accessor's corrupted-record case exists. */
  lemma EmptyTextRejected()
    ensures Decode("") == None
  {
    assert SkipWs("") == [];
    assert ParseValue("") == None;
  }

  /** Example: an object that is never closed is rejected. */
  lemma UnclosedObjectRejected()
    ensures Decode("{") == None
  {
    var open := "{";
    assert open[0] == '{' && |open| == 1;
    assert SkipWs(open) == open;
    assert open[1..] == [];
    assert SkipWs([]) == [];
    assert ParseMembers([]) == None;
    assert ParseObject(open[1..]) == None;
    assert ParseToken(open) == None;
    assert ParseValue(open) == None;
  }
}
