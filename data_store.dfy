/**
 * The per-profile persistence layer: one browser tab's localStorage, the
 * module's memo of the active profile prefix, and the storage events the
 * module dispatches. Every record is kept as JSON text under
 * `<prefix>_<base>`; the prefix itself is kept under one global key.
 */
module DataStore {
  import opened Wrappers
  import opened Json
  import opened Revival
  import opened StoreKeys
  import opened Records

  /** The memo: not yet fetched (`undefined`), or the fetched active-user id, where `None` is `null`. */
  datatype PrefixCache = NotFetched | Fetched(prefix: Option<string>)

  /** `localStorage.getItem`: the stored text, or `null`. */
  function GetItem(store: map<string, string>, key: string): Option<string>
  {
    if key in store then Some(store[key]) else None
  }

  /** JavaScript truthiness of a `string | null`: present and non-empty. */
  predicate Usable(p: Option<string>)
  {
    p.Some? && p.value != ""
  }

  // ---------------------------------------------------------------------------
  // The module's operations on values: what each answers and what it leaves

  /** The prefix getActiveUserPrefix answers. */
  function ActivePrefix(hasWindow: bool, cache: PrefixCache, store: map<string, string>): Option<string>
  {
    if !hasWindow then None
    else if cache.Fetched? then cache.prefix
    else GetItem(store, ACTIVE_USER_ID_KEY)
  }

  /** The memo getActiveUserPrefix leaves. */
  function CacheAfterLookup(hasWindow: bool, cache: PrefixCache, store: map<string, string>): PrefixCache
  {
    if hasWindow && cache.NotFetched? then Fetched(GetItem(store, ACTIVE_USER_ID_KEY)) else cache
  }

  /** What getLocalStorageItem answers: the default without a window, for a
      missing key and for text that is not JSON; otherwise the revived value. */
  function ReadValue(hasWindow: bool, store: map<string, string>, key: string, default: Json): Json
  {
    if !hasWindow || key !in store then default
    else match Decode(store[key])
      case Some(v) => Revive(v)
      case None => default
  }

  /** What getLocalStorageItem leaves: a corrupt item is removed. */
  function StoreAfterRead(hasWindow: bool, store: map<string, string>, key: string): map<string, string>
  {
    if hasWindow && key in store && Decode(store[key]).None? then store - {key} else store
  }

  /** What setLocalStorageItem leaves: the JSON text of the value, unless there
      is no window or the browser refuses the write (the error is swallowed). */
  function StoreAfterWrite(hasWindow: bool, accepts: bool, store: map<string, string>, key: string, value: Json): map<string, string>
  {
    if hasWindow && accepts then store[key := Encode(value)] else store
  }

  /** The four keys a profile owns. */
  function ProfileKeys(prefix: string): set<string>
  {
    {ScopedKey(prefix, EXPENSES_KEY_BASE), ScopedKey(prefix, BUDGETS_KEY_BASE),
     ScopedKey(prefix, USER_INFO_KEY_BASE), ScopedKey(prefix, SETUP_COMPLETE_KEY_BASE)}
  }

  /** What a load of `base` answers after the prefix lookup. */
  function ScopedRead(hasWindow: bool, cache: PrefixCache, store: map<string, string>, base: string, default: Json): Json
  {
    var p := ActivePrefix(hasWindow, cache, store);
    if Usable(p) then ReadValue(hasWindow, store, ScopedKey(p.value, base), default) else default
  }

  /** What a load of `base` leaves in storage. */
  function StoreAfterScopedRead(hasWindow: bool, cache: PrefixCache, store: map<string, string>, base: string): map<string, string>
  {
    var p := ActivePrefix(hasWindow, cache, store);
    if Usable(p) then StoreAfterRead(hasWindow, store, ScopedKey(p.value, base)) else store
  }

  /** What a save of `value` under `base` leaves in storage. */
  function StoreAfterScopedWrite(hasWindow: bool, accepts: bool, cache: PrefixCache, store: map<string, string>,
                                 base: string, value: Json): map<string, string>
  {
    var p := ActivePrefix(hasWindow, cache, store);
    if Usable(p) then StoreAfterWrite(hasWindow, accepts, store, ScopedKey(p.value, base), value) else store
  }

  // ---------------------------------------------------------------------------
  // One tab

  class Browser {
    /** `typeof window !== 'undefined'`: false while rendering on the server. */
    const hasWindow: bool
    /** Whether `localStorage.setItem` succeeds (it throws when storage is full or disabled). */
    const acceptsWrites: bool
    var store: map<string, string>
    var cache: PrefixCache
    /** The keys of the storage events dispatched so far, in order. */
    var events: seq<string>

    /** A freshly loaded page: the module's memo starts out not fetched. */
    constructor (hasWindow: bool, acceptsWrites: bool, store: map<string, string>)
      ensures this.hasWindow == hasWindow && this.acceptsWrites == acceptsWrites
      ensures this.store == store && cache == NotFetched && events == []
    {
      this.hasWindow := hasWindow;
      this.acceptsWrites := acceptsWrites;
      this.store := store;
      cache := NotFetched;
      events := [];
    }

    method GetActiveUserPrefix() returns (p: Option<string>)
      modifies this`cache
      ensures p == ActivePrefix(hasWindow, old(cache), store)
      ensures cache == CacheAfterLookup(hasWindow, old(cache), store)
      ensures hasWindow ==> cache == Fetched(p)
    {
      if !hasWindow {
        return None;
      }
      if cache.NotFetched? {
        cache := Fetched(GetItem(store, ACTIVE_USER_ID_KEY));
      }
      p := cache.prefix;
    }

    method ResetMemoizedActiveUserPrefix()
      modifies this`cache
      ensures cache == NotFetched
    {
      cache := NotFetched;
    }

    method GetLocalStorageItem(key: string, default: Json) returns (v: Json)
      modifies this`store
      ensures v == ReadValue(hasWindow, old(store), key, default)
      ensures store == StoreAfterRead(hasWindow, old(store), key)
    {
      if !hasWindow {
        return default;
      }
      var item := GetItem(store, key);
      if item.None? {
        return default;
      }
      var parsed := Decode(item.value);
      if parsed.None? {
        store := store - {key};
        return default;
      }
      v := Revive(parsed.value);
    }

    method SetLocalStorageItem(key: string, value: Json)
      modifies this`store
      ensures store == StoreAfterWrite(hasWindow, acceptsWrites, old(store), key, value)
    {
      if !hasWindow {
        return;
      }
      if acceptsWrites {
        store := store[key := Encode(value)];
      }
    }

    /** The shared shape of the four loads: no usable prefix answers the default. */
    method LoadScoped(base: string, default: Json) returns (v: Json)
      modifies this`cache, this`store
      ensures v == ScopedRead(hasWindow, old(cache), old(store), base, default)
      ensures store == StoreAfterScopedRead(hasWindow, old(cache), old(store), base)
      ensures cache == CacheAfterLookup(hasWindow, old(cache), old(store))
    {
      var p := GetActiveUserPrefix();
      if !Usable(p) {
        return default;
      }
      v := GetLocalStorageItem(ScopedKey(p.value, base), default);
    }

    /** The shared shape of the saves: no usable prefix writes nothing. */
    method SaveScoped(base: string, value: Json)
      modifies this`cache, this`store
      ensures store == StoreAfterScopedWrite(hasWindow, acceptsWrites, old(cache), old(store), base, value)
      ensures cache == CacheAfterLookup(hasWindow, old(cache), old(store))
    {
      var p := GetActiveUserPrefix();
      if !Usable(p) {
        return;
      }
      SetLocalStorageItem(ScopedKey(p.value, base), value);
    }

    method LoadExpenses() returns (v: Json)
      modifies this`cache, this`store
      ensures v == ScopedRead(hasWindow, old(cache), old(store), EXPENSES_KEY_BASE, JArr([]))
      ensures store == StoreAfterScopedRead(hasWindow, old(cache), old(store), EXPENSES_KEY_BASE)
      ensures cache == CacheAfterLookup(hasWindow, old(cache), old(store))
      ensures events == old(events)
    {
      v := LoadScoped(EXPENSES_KEY_BASE, JArr([]));
    }

    method SaveExpenses(es: seq<Constants.Expense>)
      modifies this`cache, this`store
      ensures store == StoreAfterScopedWrite(hasWindow, acceptsWrites, old(cache), old(store), EXPENSES_KEY_BASE, ExpensesJson(es))
      ensures cache == CacheAfterLookup(hasWindow, old(cache), old(store))
      ensures events == old(events)
    {
      SaveScoped(EXPENSES_KEY_BASE, ExpensesJson(es));
    }

    method LoadBudgets() returns (v: Json)
      modifies this`cache, this`store
      ensures v == ScopedRead(hasWindow, old(cache), old(store), BUDGETS_KEY_BASE, JArr([]))
      ensures store == StoreAfterScopedRead(hasWindow, old(cache), old(store), BUDGETS_KEY_BASE)
      ensures cache == CacheAfterLookup(hasWindow, old(cache), old(store))
      ensures events == old(events)
    {
      v := LoadScoped(BUDGETS_KEY_BASE, JArr([]));
    }

    method SaveBudgets(bs: seq<Constants.BudgetGoal>)
      modifies this`cache, this`store
      ensures store == StoreAfterScopedWrite(hasWindow, acceptsWrites, old(cache), old(store), BUDGETS_KEY_BASE, BudgetsJson(bs))
      ensures cache == CacheAfterLookup(hasWindow, old(cache), old(store))
      ensures events == old(events)
    {
      SaveScoped(BUDGETS_KEY_BASE, BudgetsJson(bs));
    }

    method LoadUserInfo() returns (r: Option<LoadedUserInfo>)
      modifies this`cache, this`store
      ensures r == if Usable(ActivePrefix(hasWindow, old(cache), old(store)))
                   then BackFill(ScopedRead(hasWindow, old(cache), old(store), USER_INFO_KEY_BASE, JNull))
                   else None
      ensures store == StoreAfterScopedRead(hasWindow, old(cache), old(store), USER_INFO_KEY_BASE)
      ensures cache == CacheAfterLookup(hasWindow, old(cache), old(store))
      ensures events == old(events)
    {
      var p := GetActiveUserPrefix();
      if !Usable(p) {
        return None;
      }
      var stored := GetLocalStorageItem(ScopedKey(p.value, USER_INFO_KEY_BASE), JNull);
      r := BackFill(stored);
    }

    /**
     * Makes the profile of `u` the active one. The active-user id goes through
     * setLocalStorageItem and so is stored as JSON text, in quotes, while the
     * record is stored under the unquoted prefix.
     */
    method SaveUserInfo(u: UserInfo)
      modifies this`cache, this`store, this`events
      ensures !hasWindow ==> store == old(store) && cache == old(cache) && events == old(events)
      ensures hasWindow ==>
        var up := UserPrefix(u.name, u.email);
        && store == StoreAfterWrite(true, acceptsWrites,
                                    StoreAfterWrite(true, acceptsWrites, old(store), ACTIVE_USER_ID_KEY, JStr(up)),
                                    ScopedKey(up, USER_INFO_KEY_BASE), UserInfoJson(u))
        && cache == NotFetched
        && events == old(events) + [ACTIVE_USER_ID_KEY, ScopedKey(up, USER_INFO_KEY_BASE)]
    {
      if !hasWindow {
        return;
      }
      var up := UserPrefix(u.name, u.email);
      SetLocalStorageItem(ACTIVE_USER_ID_KEY, JStr(up));
      SetLocalStorageItem(ScopedKey(up, USER_INFO_KEY_BASE), UserInfoJson(u));
      ResetMemoizedActiveUserPrefix();
      events := events + [ACTIVE_USER_ID_KEY, ScopedKey(up, USER_INFO_KEY_BASE)];
    }

    /**
     * saveUserInfo with the active-user id stored as the bare prefix, which is the
     * form getActiveUserPrefix reads; everything else as in SaveUserInfo.
     */
    method SaveUserInfoBareId(u: UserInfo)
      modifies this`cache, this`store, this`events
      ensures !hasWindow ==> store == old(store) && cache == old(cache) && events == old(events)
      ensures hasWindow ==>
        var up := UserPrefix(u.name, u.email);
        var s := if acceptsWrites then old(store)[ACTIVE_USER_ID_KEY := up] else old(store);
        && store == StoreAfterWrite(true, acceptsWrites, s, ScopedKey(up, USER_INFO_KEY_BASE), UserInfoJson(u))
        && cache == NotFetched
        && events == old(events) + [ACTIVE_USER_ID_KEY, ScopedKey(up, USER_INFO_KEY_BASE)]
    {
      if !hasWindow {
        return;
      }
      var up := UserPrefix(u.name, u.email);
      if acceptsWrites {
        store := store[ACTIVE_USER_ID_KEY := up];
      }
      SetLocalStorageItem(ScopedKey(up, USER_INFO_KEY_BASE), UserInfoJson(u));
      ResetMemoizedActiveUserPrefix();
      events := events + [ACTIVE_USER_ID_KEY, ScopedKey(up, USER_INFO_KEY_BASE)];
    }

    /** Answers the stored flag as it is read back (callers test its truthiness). */
    method HasActiveUserCompletedSetup() returns (done: Json)
      modifies this`cache, this`store
      ensures done == ScopedRead(hasWindow, old(cache), old(store), SETUP_COMPLETE_KEY_BASE, JBool(false))
      ensures store == StoreAfterScopedRead(hasWindow, old(cache), old(store), SETUP_COMPLETE_KEY_BASE)
      ensures cache == CacheAfterLookup(hasWindow, old(cache), old(store))
      ensures events == old(events)
    {
      done := LoadScoped(SETUP_COMPLETE_KEY_BASE, JBool(false));
    }

    method MarkSetupAsComplete()
      modifies this`cache, this`store, this`events
      ensures store == StoreAfterScopedWrite(hasWindow, acceptsWrites, old(cache), old(store), SETUP_COMPLETE_KEY_BASE, JBool(true))
      ensures cache == CacheAfterLookup(hasWindow, old(cache), old(store))
      ensures var p := ActivePrefix(hasWindow, old(cache), old(store));
              events == old(events) + (if Usable(p) then [ScopedKey(p.value, SETUP_COMPLETE_KEY_BASE)] else [])
    {
      var p := GetActiveUserPrefix();
      if !Usable(p) {
        return;
      }
      SetLocalStorageItem(ScopedKey(p.value, SETUP_COMPLETE_KEY_BASE), JBool(true));
      if hasWindow {
        events := events + [ScopedKey(p.value, SETUP_COMPLETE_KEY_BASE)];
      }
    }

    method ClearAllUserData()
      modifies this`cache, this`store, this`events
      ensures !hasWindow ==> store == old(store) && cache == old(cache) && events == old(events)
      ensures hasWindow ==>
        var p := ActivePrefix(true, old(cache), old(store));
        && store == (if Usable(p) then old(store) - ProfileKeys(p.value) else old(store)) - {ACTIVE_USER_ID_KEY}
        && cache == NotFetched
        && events == old(events) + [ACTIVE_USER_ID_KEY]
    {
      if !hasWindow {
        return;
      }
      var p := GetActiveUserPrefix();
      if Usable(p) {
        store := store - ProfileKeys(p.value);
      }
      store := store - {ACTIVE_USER_ID_KEY};
      ResetMemoizedActiveUserPrefix();
      events := events + [ACTIVE_USER_ID_KEY];
    }

    /** Forgets the memo and fetches the active-user id again. */
    method ReinitializeActiveUserPrefix()
      modifies this`cache
      ensures cache == if hasWindow then Fetched(GetItem(store, ACTIVE_USER_ID_KEY)) else NotFetched
    {
      ResetMemoizedActiveUserPrefix();
      var _ := GetActiveUserPrefix();
    }
  }
}
