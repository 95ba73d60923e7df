/**
 * Call sequences the application performs on a freshly loaded page, with
 * what they end in. The setup dialog saves a profile with only a name and an
 * e-mail address and then marks setup complete; the initializer re-fetches
 * the prefix on load and asks whether setup is complete.
 */
module DataStoreScenarios {
  import opened Wrappers
  import opened Json
  import opened JsonLaws
  import opened Revival
  import opened StoreKeys
  import opened Constants
  import opened Records
  import opened DataStore
  import opened DataStoreLaws

  /** The facts about a profile's keys the scenarios rely on. */
  lemma KeysApart(name: string, email: string)
    ensures var up := UserPrefix(name, email);
            var quoted := "\"" + up + "\"";
            && ScopedKey(quoted, USER_INFO_KEY_BASE) != ScopedKey(up, USER_INFO_KEY_BASE)
            && ScopedKey(quoted, USER_INFO_KEY_BASE) != ScopedKey(quoted, SETUP_COMPLETE_KEY_BASE)
            && ScopedKey(up, USER_INFO_KEY_BASE) != ScopedKey(up, SETUP_COMPLETE_KEY_BASE)
            && ScopedKey(quoted, USER_INFO_KEY_BASE) != ACTIVE_USER_ID_KEY
            && ScopedKey(up, USER_INFO_KEY_BASE) != ACTIVE_USER_ID_KEY
            && ScopedKey(up, SETUP_COMPLETE_KEY_BASE) != ACTIVE_USER_ID_KEY
            && ScopedKey(quoted, SETUP_COMPLETE_KEY_BASE) != ACTIVE_USER_ID_KEY
  {
    var up := UserPrefix(name, email);
    var quoted := "\"" + up + "\"";
    QuotedPrefixMissesRecord(name, email, USER_INFO_KEY_BASE);
    ScopedKeyInjective(quoted, USER_INFO_KEY_BASE, quoted, SETUP_COMPLETE_KEY_BASE);
    ScopedKeyInjective(up, USER_INFO_KEY_BASE, up, SETUP_COMPLETE_KEY_BASE);
    ScopedKeyNotActive(quoted, USER_INFO_KEY_BASE);
    ScopedKeyNotActive(up, USER_INFO_KEY_BASE);
    ScopedKeyNotActive(up, SETUP_COMPLETE_KEY_BASE);
    ScopedKeyNotActive(quoted, SETUP_COMPLETE_KEY_BASE);
  }

  /**
   * First run as the application performs it: setup is not complete, the
   * dialog saves the profile and marks setup complete, the page reloads.
   * Setup then reads as complete, but the profile is never found again: the
   * prefix read back is the quoted id text.
   */
  method FirstRun(name: string, email: string) returns (before: Json, after: Json, profile: Option<LoadedUserInfo>)
    ensures !Truthy(before)
    ensures after == JBool(true)
    ensures profile == None
  {
    var tab := new Browser(true, true, map[]);
    tab.ReinitializeActiveUserPrefix();
    before := tab.HasActiveUserCompletedSetup();
    var u := UserInfo(name, email, None, None);
    var up := UserPrefix(name, email);
    var quoted := "\"" + up + "\"";
    ActiveIdText(name, email);
    KeysApart(name, email);
    tab.SaveUserInfo(u);
    var saved := tab.store;
    assert saved == map[ACTIVE_USER_ID_KEY := quoted][ScopedKey(up, USER_INFO_KEY_BASE) := Encode(UserInfoJson(u))];
    assert ScopedKey(quoted, USER_INFO_KEY_BASE) !in saved;
    tab.MarkSetupAsComplete();
    var marked := tab.store;
    assert marked == saved[ScopedKey(quoted, SETUP_COMPLETE_KEY_BASE) := Encode(JBool(true))];
    FlagReadsBack(saved, ScopedKey(quoted, SETUP_COMPLETE_KEY_BASE));
    assert ScopedKey(quoted, USER_INFO_KEY_BASE) !in marked;
    var reloaded := new Browser(true, true, marked);
    reloaded.ReinitializeActiveUserPrefix();
    assert reloaded.cache == Fetched(Some(quoted));
    after := reloaded.HasActiveUserCompletedSetup();
    profile := reloaded.LoadUserInfo();
  }

  /** The setup flag, once written, reads back as `true`. */
  lemma FlagReadsBack(s: map<string, string>, key: string)
    ensures ReadValue(true, s[key := Encode(JBool(true))], key, JBool(false)) == JBool(true)
  {
    ReadAfterWrite(s, key, JBool(true), JBool(false));
  }

  lemma SameItemSameRead(s1: map<string, string>, s2: map<string, string>, key: string, default: Json)
    requires GetItem(s1, key) == GetItem(s2, key)
    ensures ReadValue(true, s1, key, default) == ReadValue(true, s2, key, default)
  {
  }

  /** A profile saved by the setup dialog reads back with the default currency and income. */
  lemma DialogProfileReadsBack(s: map<string, string>, key: string, name: string, email: string)
    ensures var u := UserInfo(name, email, None, None);
            BackFill(ReadValue(true, StoreAfterWrite(true, true, s, key, UserInfoJson(u)), key, JNull))
            == Some(LoadedUserInfo(Some(JStr(name)), Some(JStr(email)), JStr("INR"), JNum(0)))
  {
    var u := UserInfo(name, email, None, None);
    ReadAfterWrite(s, key, UserInfoJson(u), JNull);
    UserInfoSurvives(u);
    BackFillSaved(u);
  }

  /** The same first run with the active-user id stored bare: the profile is found,
      with the default currency and income. */
  method FirstRunBareId(name: string, email: string) returns (after: Json, profile: Option<LoadedUserInfo>)
    ensures after == JBool(true)
    ensures profile == Some(LoadedUserInfo(Some(JStr(name)), Some(JStr(email)), JStr("INR"), JNum(0)))
  {
    var tab := new Browser(true, true, map[]);
    tab.ReinitializeActiveUserPrefix();
    var u := UserInfo(name, email, None, None);
    var up := UserPrefix(name, email);
    tab.SaveUserInfoBareId(u);
    KeysApart(name, email);
    var saved := tab.store;
    assert saved == StoreAfterWrite(true, true, map[ACTIVE_USER_ID_KEY := up], ScopedKey(up, USER_INFO_KEY_BASE), UserInfoJson(u));
    assert GetItem(saved, ACTIVE_USER_ID_KEY) == Some(up);
    DialogProfileReadsBack(map[ACTIVE_USER_ID_KEY := up], ScopedKey(up, USER_INFO_KEY_BASE), name, email);
    tab.MarkSetupAsComplete();
    var marked := tab.store;
    assert marked == StoreAfterWrite(true, true, saved, ScopedKey(up, SETUP_COMPLETE_KEY_BASE), JBool(true));
    ReadAfterWrite(saved, ScopedKey(up, SETUP_COMPLETE_KEY_BASE), JBool(true), JBool(false));
    WriteFrame(true, true, saved, ScopedKey(up, SETUP_COMPLETE_KEY_BASE), JBool(true), ScopedKey(up, USER_INFO_KEY_BASE));
    SameItemSameRead(marked, saved, ScopedKey(up, USER_INFO_KEY_BASE), JNull);
    var reloaded := new Browser(true, true, marked);
    reloaded.ReinitializeActiveUserPrefix();
    assert reloaded.cache == Fetched(Some(up));
    after := reloaded.HasActiveUserCompletedSetup();
    profile := reloaded.LoadUserInfo();
  }

  /** None of the quoted prefix's keys is the profile record under the bare prefix. */
  lemma QuotedProfileMissesRecord(name: string, email: string)
    ensures var up := UserPrefix(name, email);
            ScopedKey(up, USER_INFO_KEY_BASE) !in ProfileKeys("\"" + up + "\"")
  {
    var up := UserPrefix(name, email);
    var quoted := "\"" + up + "\"";
    ScopedKeyInjective(quoted, EXPENSES_KEY_BASE, up, USER_INFO_KEY_BASE);
    ScopedKeyInjective(quoted, BUDGETS_KEY_BASE, up, USER_INFO_KEY_BASE);
    ScopedKeyInjective(quoted, USER_INFO_KEY_BASE, up, USER_INFO_KEY_BASE);
    ScopedKeyInjective(quoted, SETUP_COMPLETE_KEY_BASE, up, USER_INFO_KEY_BASE);
  }

  /** Clearing after the first run removes the active-user id and the quoted-prefix
      records but leaves the profile record written under the bare prefix. */
  method ClearAfterFirstRun(name: string, email: string) returns (s: map<string, string>, p: Option<string>)
    ensures p == None
    ensures ACTIVE_USER_ID_KEY !in s
    ensures ScopedKey(UserPrefix(name, email), USER_INFO_KEY_BASE) in s
    ensures ScopedKey("\"" + UserPrefix(name, email) + "\"", SETUP_COMPLETE_KEY_BASE) !in s
  {
    var tab := new Browser(true, true, map[]);
    tab.SaveUserInfo(UserInfo(name, email, None, None));
    tab.MarkSetupAsComplete();
    ActiveIdText(name, email);
    KeysApart(name, email);
    QuotedProfileMissesRecord(name, email);
    tab.ClearAllUserData();
    p := tab.GetActiveUserPrefix();
    s := tab.store;
  }

  /** Expenses saved under a profile load back as the same list. */
  method ExpensesRoundTrip(prefix: string, es: seq<Expense>) returns (loaded: Json)
    requires prefix != ""
    requires forall i :: 0 <= i < |es| ==> IsIsoDate(es[i].date)
    ensures loaded == ExpensesJson(es)
  {
    var tab := new Browser(true, true, map[ACTIVE_USER_ID_KEY := prefix]);
    tab.SaveExpenses(es);
    ExpensesReadBack(NotFetched, map[ACTIVE_USER_ID_KEY := prefix], es);
    loaded := tab.LoadExpenses();
  }

  /** The memo is not refreshed when another tab switches the active-user id: the
      save still goes to the profile fetched first. */
  method StaleMemo(p: string, q: string, es: seq<Expense>) returns (s: map<string, string>)
    requires p != ""
    ensures ScopedKey(p, EXPENSES_KEY_BASE) in s && s[ScopedKey(p, EXPENSES_KEY_BASE)] == Encode(ExpensesJson(es))
    ensures GetItem(s, ACTIVE_USER_ID_KEY) == Some(q)
  {
    var tab := new Browser(true, true, map[ACTIVE_USER_ID_KEY := p]);
    var _ := tab.LoadExpenses();
    tab.store := tab.store[ACTIVE_USER_ID_KEY := q];   // written by another tab
    ScopedKeyNotActive(p, EXPENSES_KEY_BASE);
    tab.SaveExpenses(es);
    s := tab.store;
  }

  /** A record that is not JSON is removed when it is read, and the load answers no expenses. */
  method CorruptRecord(p: string, junk: string) returns (loaded: Json, s: map<string, string>)
    requires p != "" && Decode(junk).None?
    ensures loaded == JArr([])
    ensures s == map[ACTIVE_USER_ID_KEY := p]
  {
    ScopedKeyNotActive(p, EXPENSES_KEY_BASE);
    var store := map[ACTIVE_USER_ID_KEY := p, ScopedKey(p, EXPENSES_KEY_BASE) := junk];
    var key := ScopedKey(p, EXPENSES_KEY_BASE);
    assert ActivePrefix(true, NotFetched, store) == Some(p);
    assert key in store && store[key] == junk;
    assert ReadValue(true, store, key, JArr([])) == JArr([]);
    assert StoreAfterRead(true, store, key) == store - {key};
    var tab := new Browser(true, true, store);
    loaded := tab.LoadExpenses();
    assert tab.store == store - {key};
    s := tab.store;
  }

  /** With no profile, loads answer nothing and saves and marking write nothing. */
  method NoProfile(es: seq<Expense>, bs: seq<BudgetGoal>) returns (expenses: Json, budgets: Json, done: Json, s: map<string, string>)
    ensures expenses == JArr([]) && budgets == JArr([]) && done == JBool(false)
    ensures s == map[]
  {
    var tab := new Browser(true, true, map[]);
    tab.SaveExpenses(es);
    tab.SaveBudgets(bs);
    tab.MarkSetupAsComplete();
    expenses := tab.LoadExpenses();
    budgets := tab.LoadBudgets();
    done := tab.HasActiveUserCompletedSetup();
    s := tab.store;
  }

  /** When the browser refuses writes, saving leaves storage as it was. */
  method RefusedWrite(p: string, store: map<string, string>, bs: seq<BudgetGoal>) returns (s: map<string, string>)
    ensures s == store
  {
    var tab := new Browser(true, false, store);
    tab.SaveBudgets(bs);
    tab.MarkSetupAsComplete();
    s := tab.store;
  }

  /** Marking setup complete twice stores the same as once, with one event per call. */
  method MarkTwice(store: map<string, string>) returns (once: map<string, string>, twice: map<string, string>, events: seq<string>)
    requires GetItem(store, ACTIVE_USER_ID_KEY).Some? && store[ACTIVE_USER_ID_KEY] != ""
    ensures twice == once
    ensures |events| == 2 && events[0] == events[1] == ScopedKey(store[ACTIVE_USER_ID_KEY], SETUP_COMPLETE_KEY_BASE)
  {
    var tab := new Browser(true, true, store);
    tab.MarkSetupAsComplete();
    once := tab.store;
    tab.MarkSetupAsComplete();
    twice := tab.store;
    events := tab.events;
  }

  /** On the server nothing is read or written. */
  method ServerSide(store: map<string, string>, u: UserInfo) returns (prefix: Option<string>, s: map<string, string>, events: seq<string>)
    ensures prefix == None && s == store && events == []
  {
    var tab := new Browser(false, true, store);
    tab.SaveUserInfo(u);
    tab.MarkSetupAsComplete();
    tab.ClearAllUserData();
    prefix := tab.GetActiveUserPrefix();
    s := tab.store;
    events := tab.events;
  }
}
