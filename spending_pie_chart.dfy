/**
 * The pie chart on the analytics page: the same fold as the bar chart under
 * other field names, a colour table keyed by category name, and the fill
 * each slice is drawn with.
 */
module SpendingPieChart {
  import opened Constants
  import opened CategoryTotals

  datatype Slice = Slice(name: string, value: int)

  const PIE_CHART_COLORS: seq<string> := [
    "hsl(var(--chart-1))",
    "hsl(var(--chart-2))",
    "hsl(var(--chart-3))",
    "hsl(var(--chart-4))",
    "hsl(var(--chart-5))",
    "hsl(200, 70%, 50%)",
    "hsl(30, 90%, 60%)",
    "hsl(270, 60%, 70%)"
  ]

  /** The colour the table gives the category at position `i` of CATEGORIES: the colours repeat every eight. */
  function ColorAt(i: nat): (c: string)
    ensures c in PIE_CHART_COLORS
  {
    PIE_CHART_COLORS[i % |PIE_CHART_COLORS|]
  }

  /** `data` lists the slices for the totals `g`, one for one. */
  predicate Mirrors(data: seq<Slice>, g: seq<Total>)
  {
    |data| == |g| && forall i :: 0 <= i < |data| ==> data[i] == Slice(g[i].category, g[i].total)
  }

  /** The first slice of `acc` named `c`, or -1 when there is none. */
  method FindSlice(acc: seq<Slice>, c: string) returns (i: int)
    ensures -1 <= i < |acc|
    ensures i >= 0 ==> acc[i].name == c && forall j :: 0 <= j < i ==> acc[j].name != c
    ensures i < 0 ==> forall j :: 0 <= j < |acc| ==> acc[j].name != c
  {
    i := 0;
    while i < |acc|
      invariant 0 <= i <= |acc|
      invariant forall j :: 0 <= j < i ==> acc[j].name != c
    {
      if acc[i].name == c {
        return;
      }
      i := i + 1;
    }
    i := -1;
  }

  /** The slices: one per category in first-appearance order, each holding that category's sum. */
  method DataByCategory(expenses: seq<Expense>) returns (data: seq<Slice>)
    ensures Mirrors(data, GroupSum(expenses))
  {
    data := [];
    for k := 0 to |expenses|
      invariant Mirrors(data, GroupSum(expenses[..k]))
    {
      var e := expenses[k];
      assert expenses[..k + 1] == expenses[..k] + [e];
      var i := FindSlice(data, e.category);
      if i >= 0 {
        GroupSumStepFound(expenses[..k], e, i);
        data := data[i := Slice(data[i].name, data[i].value + e.amount)];
      } else {
        GroupSumStepNew(expenses[..k], e);
        data := data + [Slice(e.category, e.amount)];
      }
    }
    assert expenses[..|expenses|] == expenses;
  }

  /** The colour table holds exactly the category names, each with its label and positional colour. */
  ghost predicate IsCategoryConfig(config: map<string, ChartEntry>)
  {
    (forall n :: n in config <==> n in CategoryNames()) &&
    forall i :: 0 <= i < |CATEGORIES| ==> config[CATEGORIES[i].name] == ChartEntry(CATEGORIES[i].name, ColorAt(i))
  }

  /** Builds the colour table by walking CATEGORIES in order. */
  method ChartConfig() returns (config: map<string, ChartEntry>)
    ensures IsCategoryConfig(config)
  {
    CategoryTable();
    var names := CategoryNames();
    config := map[];
    for k := 0 to |CATEGORIES|
      invariant forall n :: n in config <==> n in names[..k]
      invariant forall i :: 0 <= i < k ==> config[CATEGORIES[i].name] == ChartEntry(CATEGORIES[i].name, ColorAt(i))
    {
      assert names[..k + 1] == names[..k] + [names[k]];
      config := config[CATEGORIES[k].name := ChartEntry(CATEGORIES[k].name, ColorAt(k))];
    }
    assert names[..|CATEGORIES|] == names;
  }

  /** The fill of the slice at `index`: the table's colour when it has a non-empty one, else the positional colour. */
  function CellFill(config: map<string, ChartEntry>, name: string, index: nat): (fill: string)
    ensures fill != ""
    ensures fill in PIE_CHART_COLORS || (name in config && fill == config[name].color)
  {
    if name in config && config[name].color != "" then config[name].color else ColorAt(index)
  }

  /**
   * A slice of a listed category is drawn in that category's table colour
   * whatever its position; any other slice gets the colour of its own
   * position.
   */
  lemma CellFillColours(config: map<string, ChartEntry>, name: string, index: nat)
    requires IsCategoryConfig(config)
    ensures forall i :: 0 <= i < |CATEGORIES| && CATEGORIES[i].name == name ==> CellFill(config, name, index) == ColorAt(i)
    ensures name !in CategoryNames() ==> CellFill(config, name, index) == ColorAt(index)
  {
  }

  /** The eight colours differ from each other. */
  lemma PaletteDistinct()
    ensures forall i, j :: 0 <= i < j < |PIE_CHART_COLORS| ==> PIE_CHART_COLORS[i] != PIE_CHART_COLORS[j]
  {
    forall i, j | 0 <= i < j < |PIE_CHART_COLORS|
      ensures PIE_CHART_COLORS[i] != PIE_CHART_COLORS[j]
    {
    }
  }

  /**
   * With ten categories and eight colours, the first two categories share
   * their colours with the last two (Food with Gifts, Transport with Other,
   * by CategoryTable); no other two categories share one.
   */
  lemma SharedColours()
    ensures forall i, j :: 0 <= i < j < |CATEGORIES| ==>
              (ColorAt(i) == ColorAt(j) <==> (i == 0 && j == 8) || (i == 1 && j == 9))
  {
    PaletteDistinct();
    forall i, j | 0 <= i < j < |CATEGORIES|
      ensures ColorAt(i) == ColorAt(j) <==> (i == 0 && j == 8) || (i == 1 && j == 9)
    {
      var i', j' := if i < 8 then i else i - 8, if j < 8 then j else j - 8;
      assert i % 8 == i' && j % 8 == j';
      if i' != j' {
        assert PIE_CHART_COLORS[i'] != PIE_CHART_COLORS[j'];
      }
    }
  }

  /** The pie chart shows its placeholder exactly when there are no expenses. */
  lemma PlaceholderExactly(expenses: seq<Expense>, data: seq<Slice>)
    requires Mirrors(data, GroupSum(expenses))
    ensures |data| == 0 <==> expenses == []
  {
    GroupSumEmpty(expenses);
  }
}
