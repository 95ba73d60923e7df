/**
 * The JSON shapes the store writes for each record kind, what the
 * user-profile read fills in when fields are missing, and the currency
 * symbol table.
 */
module Records {
  import opened Wrappers
  import opened Json
  import opened Constants
  import opened Revival

  /** An expense as JSON.stringify sees it: the Date serialises as its ISO text. */
  function ExpenseJson(e: Expense): Json
  {
    JObj([Member("id", JStr(e.id)), Member("date", JDate(e.date)),
          Member("description", JStr(e.description)), Member("category", JStr(e.category)),
          Member("amount", JNum(e.amount))])
  }

  function ExpenseItems(es: seq<Expense>): (r: seq<Json>)
    ensures |r| == |es|
    ensures forall i :: 0 <= i < |es| ==> r[i] == ExpenseJson(es[i])
  {
    if es == [] then [] else [ExpenseJson(es[0])] + ExpenseItems(es[1..])
  }

  function ExpensesJson(es: seq<Expense>): Json
  {
    JArr(ExpenseItems(es))
  }

  function BudgetJson(b: BudgetGoal): Json
  {
    JObj([Member("id", JStr(b.id)), Member("category", JStr(b.category)),
          Member("goalAmount", JNum(b.goalAmount)), Member("spentAmount", JNum(b.spentAmount))])
  }

  function BudgetItems(bs: seq<BudgetGoal>): (r: seq<Json>)
    ensures |r| == |bs|
    ensures forall i :: 0 <= i < |bs| ==> r[i] == BudgetJson(bs[i])
  {
    if bs == [] then [] else [BudgetJson(bs[0])] + BudgetItems(bs[1..])
  }

  function BudgetsJson(bs: seq<BudgetGoal>): Json
  {
    JArr(BudgetItems(bs))
  }

  /**
   * The profile record. The interface declares `currency` and `totalIncome`
   * required, but the setup dialog saves only a name and an e-mail address,
   * so both may be absent.
   */
  datatype UserInfo = UserInfo(name: string, email: string, currency: Option<string>, totalIncome: Option<int>)

  /** JSON.stringify leaves out a field whose value is undefined. */
  function UserInfoJson(u: UserInfo): (j: Json)
    ensures j.JObj? && |j.members| == 2 + (if u.currency.Some? then 1 else 0) + (if u.totalIncome.Some? then 1 else 0)
  {
    JObj([Member("name", JStr(u.name)), Member("email", JStr(u.email))]
         + (if u.currency.Some? then [Member("currency", JStr(u.currency.value))] else [])
         + (if u.totalIncome.Some? then [Member("totalIncome", JNum(u.totalIncome.value))] else []))
  }

  // ---------------------------------------------------------------------------
  // What survives a write and a read

  lemma CanonMembersCons(m: Member, rest: seq<Member>)
    ensures CanonMembers([m] + rest) <==>
            (if m.key == "date" then CanonDate(m.val) else Canon(m.val)) && CanonMembers(rest)
  {
    assert ([m] + rest)[0] == m && ([m] + rest)[1..] == rest;
  }

  lemma ExpenseCanon(e: Expense)
    ensures Canon(ExpenseJson(e)) <==> IsIsoDate(e.date)
  {
    var ms := ExpenseJson(e).members;
    var t4 := [ms[4]];
    var t3 := [ms[3]] + t4;
    var t2 := [ms[2]] + t3;
    var t1 := [ms[1]] + t2;
    assert ms == [ms[0]] + t1;
    assert t4 == [ms[4]] + [];
    CanonMembersCons(ms[0], t1);
    CanonMembersCons(ms[1], t2);
    CanonMembersCons(ms[2], t3);
    CanonMembersCons(ms[3], t4);
    CanonMembersCons(ms[4], []);
  }

  lemma BudgetCanon(b: BudgetGoal)
    ensures Canon(BudgetJson(b))
  {
    var ms := BudgetJson(b).members;
    var t3 := [ms[3]];
    var t2 := [ms[2]] + t3;
    var t1 := [ms[1]] + t2;
    assert ms == [ms[0]] + t1;
    assert t3 == [ms[3]] + [];
    CanonMembersCons(ms[0], t1);
    CanonMembersCons(ms[1], t2);
    CanonMembersCons(ms[2], t3);
    CanonMembersCons(ms[3], []);
  }

  lemma {:induction false} CanonMembersPlain(ms: seq<Member>)
    requires forall i :: 0 <= i < |ms| ==> ms[i].key != "date" && (ms[i].val.JStr? || ms[i].val.JNum?)
    ensures CanonMembers(ms)
  {
    if ms != [] {
      CanonMembersPlain(ms[1..]);
    }
  }

  lemma UserInfoCanon(u: UserInfo)
    ensures Canon(UserInfoJson(u))
  {
    CanonMembersPlain(UserInfoJson(u).members);
  }

  lemma {:induction false} ExpenseItemsCanon(es: seq<Expense>)
    ensures CanonItems(ExpenseItems(es)) <==> forall i :: 0 <= i < |es| ==> IsIsoDate(es[i].date)
  {
    if es != [] {
      ExpenseItemsCanon(es[1..]);
      ExpenseCanon(es[0]);
      var r := ExpenseItems(es);
      assert r[1..] == ExpenseItems(es[1..]);
      assert forall i :: 1 <= i < |es| ==> es[i] == es[1..][i - 1];
    }
  }

  /** An expense list is read back as written exactly when every date is
      pattern text (what toISOString gives for the years 0 to 9999). */
  lemma ExpensesSurvive(es: seq<Expense>)
    ensures Revive(Erase(ExpensesJson(es))) == ExpensesJson(es) <==>
            forall i :: 0 <= i < |es| ==> IsIsoDate(es[i].date)
  {
    ExpenseItemsCanon(es);
    ReviveEraseExactly(ExpensesJson(es));
  }

  lemma {:induction false} BudgetItemsCanon(bs: seq<BudgetGoal>)
    ensures CanonItems(BudgetItems(bs))
  {
    if bs != [] {
      BudgetItemsCanon(bs[1..]);
      BudgetCanon(bs[0]);
      assert BudgetItems(bs)[1..] == BudgetItems(bs[1..]);
    }
  }

  /** A budget list always reads back as written: no member is named `date`. */
  lemma BudgetsSurvive(bs: seq<BudgetGoal>)
    ensures Revive(Erase(BudgetsJson(bs))) == BudgetsJson(bs)
  {
    BudgetItemsCanon(bs);
    ReviveErase(BudgetsJson(bs));
  }

  lemma UserInfoSurvives(u: UserInfo)
    ensures Revive(Erase(UserInfoJson(u))) == UserInfoJson(u)
  {
    UserInfoCanon(u);
    ReviveErase(UserInfoJson(u));
  }

  /** Distinct lists have distinct JSON, so what is read back determines the list. */
  lemma ExpensesJsonInjective(a: seq<Expense>, b: seq<Expense>)
    ensures ExpensesJson(a) == ExpensesJson(b) <==> a == b
  {
    if ExpensesJson(a) == ExpensesJson(b) {
      assert |a| == |ExpenseItems(a)| == |ExpenseItems(b)| == |b|;
      forall i | 0 <= i < |a|
        ensures a[i] == b[i]
      {
        assert ExpenseJson(a[i]) == ExpenseItems(a)[i] == ExpenseItems(b)[i] == ExpenseJson(b[i]);
      }
    }
  }

  lemma BudgetsJsonInjective(a: seq<BudgetGoal>, b: seq<BudgetGoal>)
    ensures BudgetsJson(a) == BudgetsJson(b) <==> a == b
  {
    if BudgetsJson(a) == BudgetsJson(b) {
      assert |a| == |BudgetItems(a)| == |BudgetItems(b)| == |b|;
      forall i | 0 <= i < |a|
        ensures a[i] == b[i]
      {
        assert BudgetJson(a[i]) == BudgetItems(a)[i] == BudgetItems(b)[i] == BudgetJson(b[i]);
      }
    }
  }

  // ---------------------------------------------------------------------------
  // Reading the profile

  /** The profile as the read returns it: name and e-mail are whatever is
      stored (absent when missing), currency and income are filled in. */
  datatype LoadedUserInfo = LoadedUserInfo(name: Option<Json>, email: Option<Json>, currency: Json, totalIncome: Json)

  /**
   * The back-filling of a stored profile: nothing when the stored value is
   * falsy; otherwise a missing or falsy currency becomes "INR" (`||`) and a
   * missing or null income becomes 0 (`??`).
   */
  function BackFill(stored: Json): (r: Option<LoadedUserInfo>)
    ensures r.Some? <==> Truthy(stored)
    ensures r.Some? ==> r.value.name == Get(stored, "name") && r.value.email == Get(stored, "email")
    ensures r.Some? ==> Truthy(r.value.currency)
    ensures r.Some? ==> r.value.totalIncome != JNull
  {
    if !Truthy(stored) then None
    else
      var c := Get(stored, "currency");
      var t := Get(stored, "totalIncome");
      Some(LoadedUserInfo(Get(stored, "name"), Get(stored, "email"),
                          if c.Some? && Truthy(c.value) then c.value else JStr("INR"),
                          if t.Some? && t.value != JNull then t.value else JNum(0)))
  }

  lemma LookupSnoc(ms: seq<Member>, m: Member, key: string)
    ensures Lookup(ms + [m], key) == if m.key == key then Some(m.val) else Lookup(ms, key)
  {
    assert (ms + [m])[..|ms|] == ms;
  }

  /** What one key finds in a saved profile. */
  lemma UserInfoLookup(u: UserInfo, key: string)
    ensures Get(UserInfoJson(u), key) ==
      if key == "totalIncome" && u.totalIncome.Some? then Some(JNum(u.totalIncome.value))
      else if key == "currency" && u.currency.Some? then Some(JStr(u.currency.value))
      else if key == "email" then Some(JStr(u.email))
      else if key == "name" then Some(JStr(u.name))
      else None
  {
    var a, b := Member("name", JStr(u.name)), Member("email", JStr(u.email));
    var cur: seq<Member> := if u.currency.Some? then [Member("currency", JStr(u.currency.value))] else [];
    var inc: seq<Member> := if u.totalIncome.Some? then [Member("totalIncome", JNum(u.totalIncome.value))] else [];
    var ab := [a, b];
    assert UserInfoJson(u).members == ab + cur + inc;
    assert ab == [a] + [b];
    assert Lookup([a], key) == if key == "name" then Some(JStr(u.name)) else None;
    LookupSnoc([a], b, key);
    if u.currency.Some? {
      assert ab + cur == ab + [cur[0]];
      LookupSnoc(ab, cur[0], key);
    } else {
      assert ab + cur == ab;
    }
    if u.totalIncome.Some? {
      assert ab + cur + inc == (ab + cur) + [inc[0]];
      LookupSnoc(ab + cur, inc[0], key);
    } else {
      assert ab + cur + inc == ab + cur;
    }
  }

  /** Every field of a saved profile is found under its own name. */
  lemma UserInfoFields(u: UserInfo)
    ensures Get(UserInfoJson(u), "name") == Some(JStr(u.name))
    ensures Get(UserInfoJson(u), "email") == Some(JStr(u.email))
    ensures Get(UserInfoJson(u), "currency") == if u.currency.Some? then Some(JStr(u.currency.value)) else None
    ensures Get(UserInfoJson(u), "totalIncome") == if u.totalIncome.Some? then Some(JNum(u.totalIncome.value)) else None
  {
    UserInfoLookup(u, "name");
    UserInfoLookup(u, "email");
    UserInfoLookup(u, "currency");
    UserInfoLookup(u, "totalIncome");
  }

  /** Reading back a saved profile: the given currency unless it is empty,
      the given income (a stored 0 stays 0), or the defaults. */
  lemma BackFillSaved(u: UserInfo)
    ensures BackFill(UserInfoJson(u)) ==
      Some(LoadedUserInfo(Some(JStr(u.name)), Some(JStr(u.email)),
                          if u.currency.Some? && u.currency.value != "" then JStr(u.currency.value) else JStr("INR"),
                          JNum(if u.totalIncome.Some? then u.totalIncome.value else 0)))
  {
    UserInfoFields(u);
  }

  /** What the store answers for falsy stored values: no profile. */
  lemma BackFillFalsy()
    ensures BackFill(JNull) == None && BackFill(JBool(false)) == None
    ensures BackFill(JNum(0)) == None && BackFill(JStr("")) == None
  {
  }

  /** The symbol of each currency code other than the rupee's. */
  const SYMBOLS: map<string, string> := map["USD" := "$", "EUR" := "€", "GBP" := "£", "CAD" := "C$"]

  /** The symbol shown for a currency code; unknown and absent codes show the rupee sign. */
  function CurrencySymbol(code: Option<string>): (sym: string)
    ensures sym == if code.Some? && code.value in SYMBOLS then SYMBOLS[code.value] else "₹"
    ensures sym in {"$", "€", "£", "C$", "₹"}
    ensures sym != "₹" <==> code.Some? && code.value in {"USD", "EUR", "GBP", "CAD"}
  {
    if code == Some("USD") then "$"
    else if code == Some("EUR") then "€"
    else if code == Some("GBP") then "£"
    else if code == Some("CAD") then "C$"
    else "₹"
  }

  /** The four known codes have four different symbols. */
  lemma CurrencySymbolsDistinct(a: string, b: string)
    requires a in {"USD", "EUR", "GBP", "CAD"} && b in {"USD", "EUR", "GBP", "CAD"}
    ensures CurrencySymbol(Some(a)) == CurrencySymbol(Some(b)) <==> a == b
  {
  }
}
