/**
 * The reviver the store hands to JSON.parse: every member named `date`
 * whose value is text of the exact shape `YYYY-MM-DDTHH:MM:SS.mmmZ` is
 * turned back into a Date, at any depth, innermost values first.
 */
module Revival {
  import opened Json

  /** `s[i..i+n]` is all ASCII digits. */
  predicate DigitsAt(s: string, i: nat, n: nat)
    requires i + n <= |s|
  {
    forall k :: i <= k < i + n ==> IsDigit(s[k])
  }

  /** A moment as Date.prototype.toISOString spells it out, field by field. */
  datatype Instant = Instant(year: nat, month: nat, day: nat, hour: nat, minute: nat, second: nat, milli: nat)

  /** The last `width` decimal digits of `n`, padded with zeros. */
  function Padded(n: nat, width: nat): (r: string)
    ensures |r| == width && forall i :: 0 <= i < width ==> IsDigit(r[i])
  {
    if width == 0 then [] else Padded(n / 10, width - 1) + [DigitChar(n % 10)]
  }

  /** Reading a run of digits and padding it back gives the same text. */
  lemma {:induction false} PaddedDigitsValue(d: string)
    requires forall i :: 0 <= i < |d| ==> IsDigit(d[i])
    ensures Padded(DigitsValue(d), |d|) == d
  {
    if d != [] {
      var init := d[..|d| - 1];
      PaddedDigitsValue(init);
      assert init + [d[|d| - 1]] == d;
    }
  }

  /** The number spelt by the `n` characters at `i`, when they are digits. */
  function FieldAt(s: string, i: nat, n: nat): (v: nat)
    requires i + n <= |s|
    ensures DigitsAt(s, i, n) ==> Padded(v, n) == s[i..i + n]
  {
    if DigitsAt(s, i, n) then
      PaddedDigitsValue(s[i..i + n]);
      DigitsValue(s[i..i + n])
    else 0
  }

  /** What toISOString writes for an instant whose year is 0 to 9999 and whose
      other fields are in range. */
  function IsoText(t: Instant): string
  {
    Padded(t.year, 4) + "-" + Padded(t.month, 2) + "-" + Padded(t.day, 2) + "T" +
    Padded(t.hour, 2) + ":" + Padded(t.minute, 2) + ":" + Padded(t.second, 2) + "." +
    Padded(t.milli, 3) + "Z"
  }

  /** The fields of a 24-character date text. */
  function InstantOf(s: string): Instant
    requires |s| == 24
  {
    Instant(FieldAt(s, 0, 4), FieldAt(s, 5, 2), FieldAt(s, 8, 2), FieldAt(s, 11, 2),
            FieldAt(s, 14, 2), FieldAt(s, 17, 2), FieldAt(s, 20, 3))
  }

  /** The date pattern, anchored at both ends: exactly 24 characters. */
  predicate IsIsoDate(s: string)
  {
    |s| == 24 &&
    DigitsAt(s, 0, 4) && s[4] == '-' && DigitsAt(s, 5, 2) && s[7] == '-' && DigitsAt(s, 8, 2) &&
    s[10] == 'T' && DigitsAt(s, 11, 2) && s[13] == ':' && DigitsAt(s, 14, 2) && s[16] == ':' &&
    DigitsAt(s, 17, 2) && s[19] == '.' && DigitsAt(s, 20, 3) && s[23] == 'Z'
  }

  /** Every text toISOString writes is turned back into a Date. */
  lemma IsoTextAccepted(t: Instant)
    ensures IsIsoDate(IsoText(t))
  {
  }

  /** The pattern accepts exactly the texts toISOString writes: each is the
      text of the instant its own digits spell. */
  lemma IsoDateExactly(s: string)
    ensures IsIsoDate(s) <==> |s| == 24 && s == IsoText(InstantOf(s))
  {
    if |s| == 24 {
      IsoTextAccepted(InstantOf(s));
    }
  }

  /** What the reviver answers for one key and its (already revived) value. */
  function ReviveField(key: string, v: Json): (r: Json)
    ensures r != v <==> key == "date" && v.JStr? && IsIsoDate(v.s)
    ensures r != v ==> r == JDate(v.s)
  {
    if key == "date" && v.JStr? && IsIsoDate(v.s) then JDate(v.s) else v
  }

  /** The whole parse-time revival of a value. Array elements are called with
      their index as key, which is never `date`, so they are left alone. */
  function Revive(j: Json): (r: Json)
    ensures Erase(r) == Erase(j)
  {
    match j
    case JArr(items) => JArr(ReviveItems(items))
    case JObj(ms) => JObj(ReviveMembers(ms))
    case _ => j
  }

  function ReviveItems(items: seq<Json>): (r: seq<Json>)
    ensures |r| == |items|
    ensures EraseItems(r) == EraseItems(items)
  {
    if items == [] then [] else [Revive(items[0])] + ReviveItems(items[1..])
  }

  function ReviveMembers(ms: seq<Member>): (r: seq<Member>)
    ensures |r| == |ms|
    ensures forall i :: 0 <= i < |ms| ==> r[i].key == ms[i].key
    ensures EraseMembers(r) == EraseMembers(ms)
  {
    if ms == [] then []
    else [Member(ms[0].key, ReviveField(ms[0].key, Revive(ms[0].val)))] + ReviveMembers(ms[1..])
  }

  // ---------------------------------------------------------------------------
  // Which values survive a write and a read unchanged

  /** No Date anywhere: true of everything JSON.parse produces before revival. */
  predicate DateFree(j: Json)
  {
    match j
    case JDate(_) => false
    case JArr(items) => DateFreeItems(items)
    case JObj(ms) => DateFreeMembers(ms)
    case _ => true
  }

  predicate DateFreeItems(items: seq<Json>)
  {
    items == [] || (DateFree(items[0]) && DateFreeItems(items[1..]))
  }

  predicate DateFreeMembers(ms: seq<Member>)
  {
    ms == [] || (DateFree(ms[0].val) && DateFreeMembers(ms[1..]))
  }

  /**
   * Canonical: Dates occur exactly where the reviver puts them. A value is
   * canonical when it holds no Date except as the value of a `date` member,
   * every such Date has pattern text, and no `date` member holds pattern
   * text as a plain string.
   */
  predicate Canon(j: Json)
    decreases j, 1
  {
    match j
    case JDate(_) => false
    case JArr(items) => CanonItems(items)
    case JObj(ms) => CanonMembers(ms)
    case _ => true
  }

  predicate CanonItems(items: seq<Json>)
    decreases items, 0
  {
    items == [] || (Canon(items[0]) && CanonItems(items[1..]))
  }

  predicate CanonMembers(ms: seq<Member>)
    decreases ms, 0
  {
    ms == [] ||
    ((if ms[0].key == "date" then CanonDate(ms[0].val) else Canon(ms[0].val)) && CanonMembers(ms[1..]))
  }

  /** What a `date` member may hold in a canonical value. */
  predicate CanonDate(v: Json)
    decreases v, 2
  {
    match v
    case JDate(iso) => IsIsoDate(iso)
    case JStr(s) => !IsIsoDate(s)
    case _ => Canon(v)
  }

  lemma {:induction false} EraseDateFree(j: Json)
    ensures DateFree(Erase(j))
    decreases j, 1
  {
    match j
    case JArr(items) => EraseItemsDateFree(items);
    case JObj(ms) => EraseMembersDateFree(ms);
    case _ =>
  }

  lemma {:induction false} EraseItemsDateFree(items: seq<Json>)
    ensures DateFreeItems(EraseItems(items))
    decreases items, 0
  {
    if items != [] {
      EraseDateFree(items[0]);
      EraseItemsDateFree(items[1..]);
      var r := EraseItems(items);
      assert r[0] == Erase(items[0]) && r[1..] == EraseItems(items[1..]);
    }
  }

  lemma {:induction false} EraseMembersDateFree(ms: seq<Member>)
    ensures DateFreeMembers(EraseMembers(ms))
    decreases ms, 0
  {
    if ms != [] {
      EraseDateFree(ms[0].val);
      EraseMembersDateFree(ms[1..]);
      var r := EraseMembers(ms);
      assert r[0].val == Erase(ms[0].val) && r[1..] == EraseMembers(ms[1..]);
    }
  }

  /** Writing a canonical value and reviving what is read back gives it back. */
  lemma {:induction false} ReviveErase(j: Json)
    requires Canon(j)
    ensures Revive(Erase(j)) == j
    decreases j, 1
  {
    match j
    case JArr(items) => ReviveEraseItems(items);
    case JObj(ms) => ReviveEraseMembers(ms);
    case _ =>
  }

  lemma {:induction false} ReviveEraseItems(items: seq<Json>)
    requires CanonItems(items)
    ensures ReviveItems(EraseItems(items)) == items
    decreases items, 0
  {
    if items != [] {
      ReviveErase(items[0]);
      ReviveEraseItems(items[1..]);
      var e := EraseItems(items);
      assert e[0] == Erase(items[0]) && e[1..] == EraseItems(items[1..]);
      assert [items[0]] + items[1..] == items;
    }
  }

  lemma {:induction false} ReviveEraseMembers(ms: seq<Member>)
    requires CanonMembers(ms)
    ensures ReviveMembers(EraseMembers(ms)) == ms
    decreases ms, 0
  {
    if ms != [] {
      var m := ms[0];
      ReviveEraseMember(m);
      ReviveEraseMembers(ms[1..]);
      var e := EraseMembers(ms);
      assert e[0] == Member(m.key, Erase(m.val)) && e[1..] == EraseMembers(ms[1..]);
      assert [m] + ms[1..] == ms;
    }
  }

  lemma {:induction false} ReviveEraseMember(m: Member)
    requires if m.key == "date" then CanonDate(m.val) else Canon(m.val)
    ensures ReviveField(m.key, Revive(Erase(m.val))) == m.val
    decreases m, 0
  {
    match m.val
    case JDate(iso) =>
    case JStr(s) =>
    case _ => ReviveErase(m.val);
  }

  /** Revival of a parsed value always yields a canonical value. */
  lemma {:induction false} ReviveCanon(j: Json)
    requires DateFree(j)
    ensures Canon(Revive(j))
    decreases j, 1
  {
    match j
    case JArr(items) => ReviveItemsCanon(items);
    case JObj(ms) => ReviveMembersCanon(ms);
    case _ =>
  }

  lemma {:induction false} ReviveItemsCanon(items: seq<Json>)
    requires DateFreeItems(items)
    ensures CanonItems(ReviveItems(items))
    decreases items, 0
  {
    if items != [] {
      ReviveCanon(items[0]);
      ReviveItemsCanon(items[1..]);
      var r := ReviveItems(items);
      assert r[0] == Revive(items[0]) && r[1..] == ReviveItems(items[1..]);
    }
  }

  lemma {:induction false} ReviveMembersCanon(ms: seq<Member>)
    requires DateFreeMembers(ms)
    ensures CanonMembers(ReviveMembers(ms))
    decreases ms, 0
  {
    if ms != [] {
      var m := ms[0];
      ReviveCanon(m.val);
      ReviveMembersCanon(ms[1..]);
      var r := ReviveMembers(ms);
      assert r[0] == Member(m.key, ReviveField(m.key, Revive(m.val)));
      assert r[1..] == ReviveMembers(ms[1..]);
      var v := Revive(m.val);
      if m.key == "date" {
        assert CanonDate(ReviveField(m.key, v)) by {
          if v.JStr? {
          } else {
            assert ReviveField(m.key, v) == v;
          }
        }
      }
    }
  }

  /** A value survives a write and a read exactly when it is canonical. */
  lemma ReviveEraseExactly(j: Json)
    ensures Revive(Erase(j)) == j <==> Canon(j)
  {
    if Canon(j) {
      ReviveErase(j);
    } else {
      EraseDateFree(j);
      ReviveCanon(Erase(j));
    }
  }
}
