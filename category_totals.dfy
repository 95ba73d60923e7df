/**
 * What both analytics charts compute from the expense list: one entry per
 * distinct category, in the order each category first appears, holding the
 * sum of that category's amounts. This is the reference definition the
 * charts' accumulating loops are proved against.
 */
module CategoryTotals {
  import opened Constants

  datatype Total = Total(category: string, total: int)

  /** The label and colour a chart gives one series. */
  datatype ChartEntry = ChartEntry(labelText: string, color: string)

  /** Some expense has category `c`. */
  predicate Occurs(es: seq<Expense>, c: string)
  {
    exists k :: 0 <= k < |es| && es[k].category == c
  }

  /** The distinct categories of `es`, in order of first appearance. */
  function Categories(es: seq<Expense>): (cs: seq<string>)
    ensures |cs| <= |es|
  {
    if es == [] then []
    else
      var cs := Categories(es[..|es| - 1]);
      var c := es[|es| - 1].category;
      if c in cs then cs else cs + [c]
  }

  /** The sum of the amounts of the expenses with category `c`. */
  function AmountFor(es: seq<Expense>, c: string): int
  {
    if es == [] then 0
    else AmountFor(es[..|es| - 1], c) + (if es[|es| - 1].category == c then es[|es| - 1].amount else 0)
  }

  /** The group-by-category sum. */
  function GroupSum(es: seq<Expense>): (g: seq<Total>)
    ensures |g| == |Categories(es)|
    ensures forall i :: 0 <= i < |g| ==> g[i].category == Categories(es)[i]
  {
    var cs := Categories(es);
    seq(|cs|, i requires 0 <= i < |cs| => Total(cs[i], AmountFor(es, cs[i])))
  }

  /** The position of the first expense with category `c`. */
  function FirstAt(es: seq<Expense>, c: string): (k: nat)
    requires Occurs(es, c)
    ensures k < |es| && es[k].category == c
    ensures forall j :: 0 <= j < k ==> es[j].category != c
  {
    var init := es[..|es| - 1];
    if Occurs(init, c) then
      var k := FirstAt(init, c);
      assert es[k] == init[k];
      assert forall j :: 0 <= j < k ==> es[j] == init[j];
      k
    else
      assert forall j :: 0 <= j < |es| - 1 ==> es[j] == init[j];
      |es| - 1
  }

  function AmountSum(es: seq<Expense>): int
  {
    if es == [] then 0 else AmountSum(es[..|es| - 1]) + es[|es| - 1].amount
  }

  function TotalSum(g: seq<Total>): int
  {
    if g == [] then 0 else g[0].total + TotalSum(g[1..])
  }

  // ---------------------------------------------------------------------------
  // Properties of the reference definition

  lemma Init(es: seq<Expense>, e: Expense)
    ensures (es + [e])[..|es|] == es && (es + [e])[|es|] == e
  {
  }

  /** No category is listed twice. */
  lemma {:induction false} CategoriesDistinct(es: seq<Expense>)
    ensures forall i, j :: 0 <= i < j < |Categories(es)| ==> Categories(es)[i] != Categories(es)[j]
  {
    if es != [] {
      CategoriesDistinct(es[..|es| - 1]);
    }
  }

  /** The categories listed are exactly the categories that occur. */
  lemma {:induction false} CategoriesExactly(es: seq<Expense>)
    ensures forall c :: c in Categories(es) <==> Occurs(es, c)
  {
    if es != [] {
      var init := es[..|es| - 1];
      CategoriesExactly(init);
      forall c
        ensures c in Categories(es) <==> Occurs(es, c)
      {
        if Occurs(init, c) {
          var k :| 0 <= k < |init| && init[k].category == c;
          assert es[k] == init[k];
        }
        if Occurs(es, c) {
          var k :| 0 <= k < |es| && es[k].category == c;
          assert k < |es| - 1 ==> init[k] == es[k];
        }
      }
    }
  }

  /** Categories are listed in the order of their first appearance. */
  lemma {:induction false} CategoriesInFirstAppearanceOrder(es: seq<Expense>)
    ensures forall c :: c in Categories(es) ==> Occurs(es, c)
    ensures forall i, j :: 0 <= i < j < |Categories(es)| ==>
              FirstAt(es, Categories(es)[i]) < FirstAt(es, Categories(es)[j])
  {
    CategoriesExactly(es);
    if es != [] {
      var init := es[..|es| - 1];
      var cs := Categories(es);
      CategoriesInFirstAppearanceOrder(init);
      CategoriesExactly(init);
      forall c | c in Categories(init)
        ensures FirstAt(es, c) == FirstAt(init, c)
      {
      }
      forall i, j | 0 <= i < j < |cs|
        ensures FirstAt(es, cs[i]) < FirstAt(es, cs[j])
      {
        if j == |Categories(init)| {
          assert !Occurs(init, cs[j]);
          assert FirstAt(es, cs[j]) == |es| - 1;
        }
      }
    }
  }

  /** Nothing to chart exactly when there are no expenses. */
  lemma GroupSumEmpty(es: seq<Expense>)
    ensures GroupSum(es) == [] <==> es == []
    ensures |GroupSum(es)| <= |es|
  {
    if es != [] {
      assert es[|es| - 1].category in Categories(es);
    }
  }

  /** The total for a category is the sum of its amounts; categories not listed have none. */
  lemma {:induction false} AmountForAbsent(es: seq<Expense>, c: string)
    requires !Occurs(es, c)
    ensures AmountFor(es, c) == 0
  {
    if es != [] {
      var init := es[..|es| - 1];
      forall k | 0 <= k < |init|
        ensures init[k].category != c
      {
        assert init[k] == es[k];
      }
      AmountForAbsent(init, c);
    }
  }

  // ---------------------------------------------------------------------------
  // One more expense: the step the charts' loops take

  lemma AmountForStep(es: seq<Expense>, e: Expense, c: string)
    ensures AmountFor(es + [e], c) == AmountFor(es, c) + (if e.category == c then e.amount else 0)
  {
    Init(es, e);
  }

  /** An expense of a category already listed adds its amount to that entry. */
  lemma GroupSumStepFound(es: seq<Expense>, e: Expense, i: nat)
    requires i < |GroupSum(es)| && GroupSum(es)[i].category == e.category
    ensures GroupSum(es + [e]) == GroupSum(es)[i := Total(e.category, GroupSum(es)[i].total + e.amount)]
  {
    Init(es, e);
    var g, g' := GroupSum(es), GroupSum(es + [e]);
    assert Categories(es + [e]) == Categories(es);
    CategoriesDistinct(es);
    forall j | 0 <= j < |g|
      ensures g'[j] == g[i := Total(e.category, g[i].total + e.amount)][j]
    {
      AmountForStep(es, e, g[j].category);
    }
  }

  /** An expense of a new category appends an entry holding its amount. */
  lemma GroupSumStepNew(es: seq<Expense>, e: Expense)
    requires forall i :: 0 <= i < |GroupSum(es)| ==> GroupSum(es)[i].category != e.category
    ensures GroupSum(es + [e]) == GroupSum(es) + [Total(e.category, e.amount)]
  {
    Init(es, e);
    var g, g' := GroupSum(es), GroupSum(es + [e]);
    assert e.category !in Categories(es);
    assert Categories(es + [e]) == Categories(es) + [e.category];
    CategoriesExactly(es);
    AmountForAbsent(es, e.category);
    AmountForStep(es, e, e.category);
    forall j | 0 <= j < |g|
      ensures g'[j] == g[j]
    {
      AmountForStep(es, e, g[j].category);
    }
  }

  // ---------------------------------------------------------------------------
  // Nothing is lost or counted twice

  /** The sum of the amounts of the categories `cs`. */
  function SumFor(es: seq<Expense>, cs: seq<string>): int
  {
    if cs == [] then 0 else AmountFor(es, cs[0]) + SumFor(es, cs[1..])
  }

  lemma {:induction false} SumForStep(es: seq<Expense>, e: Expense, cs: seq<string>)
    requires forall i, j :: 0 <= i < j < |cs| ==> cs[i] != cs[j]
    ensures SumFor(es + [e], cs) == SumFor(es, cs) + (if e.category in cs then e.amount else 0)
  {
    if cs != [] {
      AmountForStep(es, e, cs[0]);
      SumForStep(es, e, cs[1..]);
      assert e.category in cs <==> e.category == cs[0] || e.category in cs[1..];
    }
  }

  lemma {:induction false} SumForSnoc(es: seq<Expense>, cs: seq<string>, c: string)
    ensures SumFor(es, cs + [c]) == SumFor(es, cs) + AmountFor(es, c)
  {
    if cs == [] {
      assert cs + [c] == [c];
    } else {
      assert (cs + [c])[1..] == cs[1..] + [c];
      SumForSnoc(es, cs[1..], c);
    }
  }

  lemma {:induction false} SumForCategories(es: seq<Expense>)
    ensures SumFor(es, Categories(es)) == AmountSum(es)
  {
    if es != [] {
      var init, e := es[..|es| - 1], es[|es| - 1];
      assert es == init + [e];
      SumForCategories(init);
      CategoriesDistinct(init);
      SumForStep(init, e, Categories(init));
      if e.category !in Categories(init) {
        CategoriesExactly(init);
        AmountForAbsent(init, e.category);
        AmountForStep(init, e, e.category);
        SumForSnoc(es, Categories(init), e.category);
      }
    }
  }

  lemma {:induction false} TotalSumIsSumFor(es: seq<Expense>, g: seq<Total>, cs: seq<string>)
    requires |g| == |cs| && forall i :: 0 <= i < |g| ==> g[i] == Total(cs[i], AmountFor(es, cs[i]))
    ensures TotalSum(g) == SumFor(es, cs)
  {
    if g != [] {
      TotalSumIsSumFor(es, g[1..], cs[1..]);
    }
  }

  /** The totals add up to the sum of all amounts. */
  lemma GroupSumConserves(es: seq<Expense>)
    ensures TotalSum(GroupSum(es)) == AmountSum(es)
  {
    TotalSumIsSumFor(es, GroupSum(es), Categories(es));
    SumForCategories(es);
  }
}
