/**
 * Storage keys: the fixed key names, the sanitising of a name or e-mail
 * address into key characters, and the per-profile key prefix
 * `user_<name>_<email>` that scopes every per-profile key.
 */
module StoreKeys {

  const EXPENSES_KEY_BASE: string := "fiscalCompassExpenses"
  const BUDGETS_KEY_BASE: string := "fiscalCompassBudgets"
  const USER_INFO_KEY_BASE: string := "fiscalCompassUserInfo"
  const SETUP_COMPLETE_KEY_BASE: string := "fiscalCompassSetupComplete"

  /** The one global key: it holds the active profile's prefix. */
  const ACTIVE_USER_ID_KEY: string := "fiscalCompassActiveUserId"

  /** The key a profile's record of kind `base` is stored under. */
  function ScopedKey(prefix: string, base: string): string
  {
    prefix + "_" + base
  }

  // ---------------------------------------------------------------------------
  // Sanitising

  /** ECMAScript WhiteSpace and LineTerminator: what `String.prototype.trim` removes. */
  predicate IsJsSpace(c: char)
  {
    c == '\t' || c == '\n' || c == '\U{B}' || c == '\U{C}' || c == '\r' || c == ' ' ||
    c == '\U{A0}' || c == '\U{1680}' || ('\U{2000}' <= c <= '\U{200A}') ||
    c == '\U{2028}' || c == '\U{2029}' || c == '\U{202F}' || c == '\U{205F}' ||
    c == '\U{3000}' || c == '\U{FEFF}'
  }

  function TrimStart(s: string): (r: string)
    ensures r == [] || !IsJsSpace(r[0])
  {
    if s != [] && IsJsSpace(s[0]) then TrimStart(s[1..]) else s
  }

  function TrimEnd(s: string): (r: string)
    ensures r == [] || !IsJsSpace(r[|r| - 1])
  {
    if s != [] && IsJsSpace(s[|s| - 1]) then TrimEnd(s[..|s| - 1]) else s
  }

  /** TrimStart drops the leading white space and nothing else. */
  lemma {:induction false} TrimStartDropsSpace(s: string)
    ensures var r := TrimStart(s);
            && |r| <= |s| && r == s[|s| - |r|..]
            && forall i :: 0 <= i < |s| - |r| ==> IsJsSpace(s[i])
  {
    if s != [] && IsJsSpace(s[0]) {
      TrimStartDropsSpace(s[1..]);
    }
  }

  /** TrimEnd drops the trailing white space and nothing else. */
  lemma {:induction false} TrimEndDropsSpace(s: string)
    ensures var r := TrimEnd(s);
            && |r| <= |s| && r == s[..|r|]
            && forall i :: |r| <= i < |s| ==> IsJsSpace(s[i])
  {
    if s != [] && IsJsSpace(s[|s| - 1]) {
      TrimEndDropsSpace(s[..|s| - 1]);
    }
  }

  function Trim(s: string): string
  {
    TrimEnd(TrimStart(s))
  }

  /**
   * What `toLowerCase()` followed by `replace(/[^a-z0-9]/g, '_')` makes of one
   * character. Lower-casing is exact for ASCII and for the two characters
   * outside ASCII whose lower case contains ASCII letters; every other
   * character is replaced anyway. The replacement works on UTF-16 code units,
   * so a character outside the Basic Multilingual Plane becomes two `_`.
   */
  function SanitizeChar(c: char): string
  {
    if 'A' <= c <= 'Z' then [(c as int + 32) as char]
    else if 'a' <= c <= 'z' || '0' <= c <= '9' then [c]
    else if c == '\U{212A}' then "k"       // KELVIN SIGN lower-cases to k
    else if c == '\U{130}' then "i_"       // lower-cases to i and COMBINING DOT ABOVE
    else if c as int >= 0x10000 then "__"  // a surrogate pair
    else "_"
  }

  function SanitizeChars(s: string): (r: string)
    ensures KeySafe(r) && |r| >= |s|
  {
    if s == [] then [] else SanitizeChar(s[0]) + SanitizeChars(s[1..])
  }

  /** The trimmed text, lower-cased, with every character outside `[a-z0-9]` made `_`. */
  function Sanitize(s: string): (r: string)
    ensures KeySafe(r) && |r| >= |Trim(s)|
  {
    SanitizeChars(Trim(s))
  }

  predicate IsKeyChar(c: char)
  {
    'a' <= c <= 'z' || '0' <= c <= '9' || c == '_'
  }

  predicate KeySafe(s: string)
  {
    forall i :: 0 <= i < |s| ==> IsKeyChar(s[i])
  }

  /** The storage-key prefix of the profile with this name and e-mail address. */
  function UserPrefix(name: string, email: string): (r: string)
    ensures KeySafe(r) && "user_" <= r
  {
    var n, e := Sanitize(name), Sanitize(email);
    assert KeySafe("user_") && KeySafe("_");
    KeySafeConcat("user_", n);
    KeySafeConcat("user_" + n, "_");
    KeySafeConcat("user_" + n + "_", e);
    "user_" + n + "_" + e
  }

  // ---------------------------------------------------------------------------
  // Laws

  lemma KeySafeConcat(a: string, b: string)
    requires KeySafe(a) && KeySafe(b)
    ensures KeySafe(a + b)
  {
  }

  /** Sanitising keeps the length of ASCII text. */
  lemma {:induction false} SanitizeCharsLength(s: string)
    ensures (forall i :: 0 <= i < |s| ==> s[i] < '\U{80}') ==> |SanitizeChars(s)| == |s|
  {
    if s != [] {
      SanitizeCharsLength(s[1..]);
    }
  }

  lemma SanitizeLength(s: string)
    ensures (forall i :: 0 <= i < |Trim(s)| ==> Trim(s)[i] < '\U{80}') ==> |Sanitize(s)| == |Trim(s)|
  {
    SanitizeCharsLength(Trim(s));
  }

  lemma {:induction false} SanitizeCharsOfKeySafe(s: string)
    requires KeySafe(s)
    ensures SanitizeChars(s) == s
  {
    if s != [] {
      SanitizeCharsOfKeySafe(s[1..]);
      assert [s[0]] + s[1..] == s;
    }
  }

  /** Text already made of key characters is left as it is. */
  lemma SanitizeOfKeySafe(s: string)
    requires KeySafe(s)
    ensures Sanitize(s) == s
  {
    assert TrimStart(s) == s;
    assert TrimEnd(s) == s;
    SanitizeCharsOfKeySafe(s);
  }

  lemma SanitizeIdempotent(s: string)
    ensures Sanitize(Sanitize(s)) == Sanitize(s)
  {
    SanitizeOfKeySafe(Sanitize(s));
  }

  lemma {:induction false} SanitizeCharsConcat(a: string, b: string)
    ensures SanitizeChars(a + b) == SanitizeChars(a) + SanitizeChars(b)
  {
    if a == [] {
      assert a + b == b;
    } else {
      assert (a + b)[1..] == a[1..] + b;
      SanitizeCharsConcat(a[1..], b);
    }
  }

  lemma Assoc5(a: string, b: string, c: string, d: string, e: string)
    ensures a + (b + c + d) + c + e == a + b + c + (d + c + e)
  {
  }

  /** The prefix does not identify a profile: moving an `_` between name and
      e-mail address gives the same prefix. */
  lemma PrefixMovesUnderscore(x: string, y: string, z: string)
    requires KeySafe(x) && KeySafe(y) && KeySafe(z)
    ensures UserPrefix(x + "_" + y, z) == UserPrefix(x, y + "_" + z)
  {
    assert KeySafe("_");
    KeySafeConcat(x, "_");
    KeySafeConcat(x + "_", y);
    KeySafeConcat(y, "_");
    KeySafeConcat(y + "_", z);
    SanitizeOfKeySafe(x + "_" + y);
    SanitizeOfKeySafe(y + "_" + z);
    SanitizeOfKeySafe(x);
    SanitizeOfKeySafe(z);
    Assoc5("user_", x, "_", y, z);
  }

  lemma TrimmedAlready(s: string)
    requires s != [] && !IsJsSpace(s[0]) && !IsJsSpace(s[|s| - 1])
    ensures Trim(s) == s
  {
    assert TrimStart(s) == s;
  }

  lemma SpacedTrimmed(x: string, y: string)
    requires KeySafe(x) && KeySafe(y) && x != [] && y != []
    ensures Trim(x + " " + y) == x + " " + y
  {
    var s := x + " " + y;
    assert s[0] == x[0] && IsKeyChar(x[0]);
    assert s[|s| - 1] == y[|y| - 1] && IsKeyChar(y[|y| - 1]);
    TrimmedAlready(s);
  }

  lemma SpacedChars(x: string, y: string)
    requires KeySafe(x) && KeySafe(y)
    ensures SanitizeChars(x + " " + y) == x + "_" + y
  {
    SanitizeCharsConcat(x + " ", y);
    SanitizeCharsConcat(x, " ");
    SanitizeCharsOfKeySafe(x);
    SanitizeCharsOfKeySafe(y);
    assert SanitizeChars(" ") == "_";
  }

  lemma SpacedSanitizes(x: string, y: string)
    requires KeySafe(x) && KeySafe(y) && x != [] && y != []
    ensures Sanitize(x + " " + y) == x + "_" + y
  {
    SpacedTrimmed(x, y);
    SpacedChars(x, y);
  }

  /** ... and an inner space and an `_` give the same prefix. */
  lemma PrefixSpaceIsUnderscore(x: string, y: string, email: string)
    requires KeySafe(x) && KeySafe(y) && x != [] && y != []
    ensures UserPrefix(x + " " + y, email) == UserPrefix(x + "_" + y, email)
  {
    SpacedSanitizes(x, y);
    assert KeySafe("_");
    KeySafeConcat(x, "_");
    KeySafeConcat(x + "_", y);
    SanitizeOfKeySafe(x + "_" + y);
  }

  /** Example: two profiles that share a prefix. */
  lemma PrefixCollisions()
    ensures UserPrefix("a_b", "c") == UserPrefix("a", "b_c")
    ensures UserPrefix("a b", "c") == UserPrefix("a_b", "c")
  {
    var a, b, c := "a", "b", "c";
    assert KeySafe(a) && KeySafe(b) && KeySafe(c) && a != [] && b != [];
    assert a + "_" + b == "a_b" && b + "_" + c == "b_c" && a + " " + b == "a b";
    PrefixMovesUnderscore(a, b, c);
    PrefixSpaceIsUnderscore(a, b, c);
  }

  /** The four record kinds a profile stores. */
  predicate IsRecordBase(base: string)
  {
    base == EXPENSES_KEY_BASE || base == BUDGETS_KEY_BASE ||
    base == USER_INFO_KEY_BASE || base == SETUP_COMPLETE_KEY_BASE
  }

  /** No record kind contains `_`, so a storage key ends in `_<kind>`. */
  lemma RecordBaseNoUnderscore(base: string)
    requires IsRecordBase(base)
    ensures forall i :: 0 <= i < |base| ==> base[i] != '_'
  {
  }

  /** Where the last `_` of a scoped key stands. */
  lemma LastUnderscore(p: string, base: string)
    requires IsRecordBase(base)
    ensures var k := ScopedKey(p, base);
            && k[|k| - |base| - 1] == '_'
            && forall i :: |k| - |base| <= i < |k| ==> k[i] != '_'
  {
    RecordBaseNoUnderscore(base);
  }

  /** Distinct profiles or distinct record kinds never share a storage key. */
  lemma ScopedKeyInjective(p1: string, b1: string, p2: string, b2: string)
    requires IsRecordBase(b1) && IsRecordBase(b2)
    ensures ScopedKey(p1, b1) == ScopedKey(p2, b2) <==> p1 == p2 && b1 == b2
  {
    var k1, k2 := ScopedKey(p1, b1), ScopedKey(p2, b2);
    if k1 == k2 {
      LastUnderscore(p1, b1);
      LastUnderscore(p2, b2);
      assert |b1| == |b2|;
      assert p1 == k1[..|p1|] && p2 == k2[..|p2|];
      assert b1 == k1[|p1| + 1..] && b2 == k2[|p2| + 1..];
    }
  }

  /** A scoped key is never the global active-profile key (it contains `_`). */
  lemma ScopedKeyNotActive(p: string, base: string)
    ensures ScopedKey(p, base) != ACTIVE_USER_ID_KEY
  {
    assert ScopedKey(p, base)[|p|] == '_';
    assert forall i :: 0 <= i < |ACTIVE_USER_ID_KEY| ==> ACTIVE_USER_ID_KEY[i] != '_';
  }
}
