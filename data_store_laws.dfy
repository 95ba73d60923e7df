/**
 * What the persistence layer's operations promise when taken together: the
 * memo, reading back what was written, which keys a write touches, and the
 * quoted active-user id.
 */
module DataStoreLaws {
  import opened Wrappers
  import opened Json
  import opened JsonLaws
  import opened Revival
  import opened StoreKeys
  import opened Constants
  import opened Records
  import opened DataStore

  // ---------------------------------------------------------------------------
  // The memo

  /** Once looked up, the prefix is answered from the memo: later changes to
      storage are not seen, and further lookups change nothing. */
  lemma MemoIgnoresStorage(hasWindow: bool, cache: PrefixCache, store: map<string, string>, later: map<string, string>)
    ensures ActivePrefix(hasWindow, CacheAfterLookup(hasWindow, cache, store), later) == ActivePrefix(hasWindow, cache, store)
    ensures CacheAfterLookup(hasWindow, CacheAfterLookup(hasWindow, cache, store), later) == CacheAfterLookup(hasWindow, cache, store)
  {
  }

  /** Without a window there is no prefix and the memo is left alone. */
  lemma NoWindowNoPrefix(cache: PrefixCache, store: map<string, string>)
    ensures ActivePrefix(false, cache, store) == None
    ensures CacheAfterLookup(false, cache, store) == cache
    ensures !Usable(ActivePrefix(false, cache, store))
  {
  }

  // ---------------------------------------------------------------------------
  // The accessors

  /** A written value reads back revived: JSON.parse(JSON.stringify(v)) with the reviver. */
  lemma ReadAfterWrite(store: map<string, string>, key: string, v: Json, default: Json)
    ensures ReadValue(true, StoreAfterWrite(true, true, store, key, v), key, default) == Revive(Erase(v))
    ensures StoreAfterRead(true, StoreAfterWrite(true, true, store, key, v), key) == StoreAfterWrite(true, true, store, key, v)
  {
    var s := StoreAfterWrite(true, true, store, key, v);
    var t := Encode(v);
    assert s == store[key := t];
    assert key in s && s[key] == t;
    DecodeEncode(v);
    assert Decode(s[key]) == Some(Erase(v));
  }

  /** A write touches its own key only. */
  lemma WriteFrame(hasWindow: bool, accepts: bool, store: map<string, string>, key: string, v: Json, other: string)
    requires other != key
    ensures GetItem(StoreAfterWrite(hasWindow, accepts, store, key, v), other) == GetItem(store, other)
  {
  }

  /** The default is answered unless the key holds JSON text, and reading
      removes nothing but a corrupt item under that key. */
  lemma ReadDefault(hasWindow: bool, store: map<string, string>, key: string, default: Json)
    ensures ReadValue(hasWindow, store, key, default) != default ==> hasWindow && key in store && Decode(store[key]).Some?
    ensures StoreAfterRead(hasWindow, store, key) != store <==> hasWindow && key in store && Decode(store[key]).None?
    ensures forall k :: k != key ==> GetItem(StoreAfterRead(hasWindow, store, key), k) == GetItem(store, k)
  {
    var after := StoreAfterRead(hasWindow, store, key);
    if hasWindow && key in store && Decode(store[key]).None? {
      assert after == store - {key};
      assert key !in after;
    } else {
      assert after == store;
    }
    forall k | k != key
      ensures GetItem(after, k) == GetItem(store, k)
    {
    }
  }

  /** Reading twice is reading once: the first read repairs what the second sees. */
  lemma ReadTwice(hasWindow: bool, store: map<string, string>, key: string, default: Json)
    ensures var s := StoreAfterRead(hasWindow, store, key);
            ReadValue(hasWindow, s, key, default) == ReadValue(hasWindow, store, key, default) &&
            StoreAfterRead(hasWindow, s, key) == s
  {
  }

  // ---------------------------------------------------------------------------
  // Saves and loads through the active prefix

  /** Saving and then loading the same record kind, with the memo the save
      left, reads the saved value back revived when there is a usable prefix. */
  lemma ScopedReadAfterWrite(cache: PrefixCache, store: map<string, string>, base: string, v: Json, default: Json)
    requires Usable(ActivePrefix(true, cache, store))
    ensures var s := StoreAfterScopedWrite(true, true, cache, store, base, v);
            ScopedRead(true, CacheAfterLookup(true, cache, store), s, base, default) == Revive(Erase(v))
  {
    var s := StoreAfterScopedWrite(true, true, cache, store, base, v);
    MemoIgnoresStorage(true, cache, store, s);
    ReadAfterWrite(store, ScopedKey(ActivePrefix(true, cache, store).value, base), v, default);
  }

  /** Saved expenses load back as the same list exactly when every date has the pattern. */
  lemma ExpensesReadBack(cache: PrefixCache, store: map<string, string>, es: seq<Expense>)
    requires Usable(ActivePrefix(true, cache, store))
    ensures var s := StoreAfterScopedWrite(true, true, cache, store, EXPENSES_KEY_BASE, ExpensesJson(es));
            ScopedRead(true, CacheAfterLookup(true, cache, store), s, EXPENSES_KEY_BASE, JArr([])) == ExpensesJson(es)
            <==> forall i :: 0 <= i < |es| ==> IsIsoDate(es[i].date)
  {
    ScopedReadAfterWrite(cache, store, EXPENSES_KEY_BASE, ExpensesJson(es), JArr([]));
    ExpensesSurvive(es);
  }

  /** Saved budgets always load back as the same list. */
  lemma BudgetsReadBack(cache: PrefixCache, store: map<string, string>, bs: seq<BudgetGoal>)
    requires Usable(ActivePrefix(true, cache, store))
    ensures var s := StoreAfterScopedWrite(true, true, cache, store, BUDGETS_KEY_BASE, BudgetsJson(bs));
            ScopedRead(true, CacheAfterLookup(true, cache, store), s, BUDGETS_KEY_BASE, JArr([])) == BudgetsJson(bs)
  {
    ScopedReadAfterWrite(cache, store, BUDGETS_KEY_BASE, BudgetsJson(bs), JArr([]));
    BudgetsSurvive(bs);
  }

  /** A load or save with no usable prefix answers the default and leaves storage alone. */
  lemma NoPrefixNoEffect(hasWindow: bool, accepts: bool, cache: PrefixCache, store: map<string, string>,
                         base: string, v: Json, default: Json)
    requires !Usable(ActivePrefix(hasWindow, cache, store))
    ensures ScopedRead(hasWindow, cache, store, base, default) == default
    ensures StoreAfterScopedRead(hasWindow, cache, store, base) == store
    ensures StoreAfterScopedWrite(hasWindow, accepts, cache, store, base, v) == store
  {
  }

  /** Saving one record kind of one profile leaves every other record of every
      profile where it was. */
  lemma ScopedWriteFrame(hasWindow: bool, accepts: bool, cache: PrefixCache, store: map<string, string>,
                         base: string, v: Json, q: string, other: string)
    requires IsRecordBase(other) && IsRecordBase(base)
    requires var p := ActivePrefix(hasWindow, cache, store); Usable(p) ==> q != p.value || other != base
    ensures GetItem(StoreAfterScopedWrite(hasWindow, accepts, cache, store, base, v), ScopedKey(q, other))
            == GetItem(store, ScopedKey(q, other))
  {
    var p := ActivePrefix(hasWindow, cache, store);
    if Usable(p) {
      ScopedKeyInjective(p.value, base, q, other);
      WriteFrame(hasWindow, accepts, store, ScopedKey(p.value, base), v, ScopedKey(q, other));
    }
  }

  /** Marking setup complete a second time, with the memo the first left, changes nothing more. */
  lemma MarkSetupIdempotent(hasWindow: bool, accepts: bool, cache: PrefixCache, store: map<string, string>)
    ensures var s := StoreAfterScopedWrite(hasWindow, accepts, cache, store, SETUP_COMPLETE_KEY_BASE, JBool(true));
            StoreAfterScopedWrite(hasWindow, accepts, CacheAfterLookup(hasWindow, cache, store), s,
                                  SETUP_COMPLETE_KEY_BASE, JBool(true)) == s
  {
    var s := StoreAfterScopedWrite(hasWindow, accepts, cache, store, SETUP_COMPLETE_KEY_BASE, JBool(true));
    MemoIgnoresStorage(hasWindow, cache, store, s);
  }

  // ---------------------------------------------------------------------------
  // The quoted active-user id

  /** The text saveUserInfo stores as the active-user id: the prefix in quotes. */
  lemma ActiveIdText(name: string, email: string)
    ensures Encode(JStr(UserPrefix(name, email))) == "\"" + UserPrefix(name, email) + "\""
  {
    var up := UserPrefix(name, email);
    assert forall i :: 0 <= i < |up| ==> IsKeyChar(up[i]);
    PlainTextQuoted(up);
  }

  /** The prefix read back from that id names other keys than the ones
      the profile record was written under. */
  lemma QuotedPrefixMissesRecord(name: string, email: string, base: string)
    requires IsRecordBase(base)
    ensures var up := UserPrefix(name, email);
            ScopedKey("\"" + up + "\"", base) != ScopedKey(up, base)
  {
    var up := UserPrefix(name, email);
    var quoted := "\"" + up + "\"";
    ScopedKeyInjective(quoted, base, up, base);
  }
}
