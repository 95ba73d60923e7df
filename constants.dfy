/**
 * The category table and the record shapes the rest of the application uses.
 */
module Constants {
  import opened Wrappers

  datatype Category = Category(name: string, iconName: string, color: Option<string>)

  /** The fixed category table; the pie chart's colours follow its order. */
  const CATEGORIES: seq<Category> := [
    Category("Food", "Utensils", Some("text-red-500")),
    Category("Transport", "Car", Some("text-blue-500")),
    Category("Entertainment", "Ticket", Some("text-yellow-500")),
    Category("Utilities", "Home", Some("text-green-500")),
    Category("Shopping", "ShoppingBag", Some("text-purple-500")),
    Category("Clothing", "Shirt", Some("text-pink-500")),
    Category("Health", "HeartPulse", Some("text-red-700")),
    Category("Education", "BookOpen", Some("text-indigo-500")),
    Category("Gifts", "Gift", Some("text-orange-500")),
    Category("Other", "HelpCircle", Some("text-gray-500"))
  ]

  /**
   * One expense. `date` is the Date's ISO-8601 text (what toISOString gives),
   * `amount` is in cents, and `category` is any string: nothing ties it to
   * CATEGORIES.
   */
  datatype Expense = Expense(id: string, date: string, description: string, category: string, amount: int)

  /** A spending goal for one category; amounts in cents. */
  datatype BudgetGoal = BudgetGoal(id: string, category: string, goalAmount: int, spentAmount: int)

  /** The names of the categories, in table order. */
  function CategoryNames(): (names: seq<string>)
    ensures |names| == |CATEGORIES|
    ensures forall i :: 0 <= i < |CATEGORIES| ==> names[i] == CATEGORIES[i].name
  {
    seq(|CATEGORIES|, i requires 0 <= i < |CATEGORIES| => CATEGORIES[i].name)
  }

  /** Ten categories, in this order, with pairwise-distinct names. */
  lemma CategoryTable()
    ensures CategoryNames() == ["Food", "Transport", "Entertainment", "Utilities", "Shopping",
                                "Clothing", "Health", "Education", "Gifts", "Other"]
    ensures forall i, j :: 0 <= i < j < |CATEGORIES| ==> CATEGORIES[i].name != CATEGORIES[j].name
  {
    var names := CategoryNames();
    assert names == ["Food", "Transport", "Entertainment", "Utilities", "Shopping",
                     "Clothing", "Health", "Education", "Gifts", "Other"];
  }
}
