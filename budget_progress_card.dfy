/**
 * The arithmetic of one budget card: how far through the goal the spending
 * is, when the card turns to its destructive style, and the line that says
 * how much is left or by how much the goal is exceeded. Amounts are in
 * cents; the percentage is a real number.
 */
module BudgetProgressCard {
  import opened Constants

  /** The percentage of the goal spent; 0 when the goal is not positive. */
  function Progress(b: BudgetGoal): (p: real)
    ensures b.goalAmount <= 0 ==> p == 0.0
    ensures b.goalAmount > 0 ==> p * (b.goalAmount as real) == (b.spentAmount as real) * 100.0
  {
    if b.goalAmount > 0 then (b.spentAmount as real / b.goalAmount as real) * 100.0 else 0.0
  }

  /** The goal less what was spent: negative exactly once the goal is exceeded, and
      together with the spending it makes up the goal. */
  function Remaining(b: BudgetGoal): (r: int)
    ensures r >= 0 <==> b.spentAmount <= b.goalAmount
    ensures r + b.spentAmount == b.goalAmount
  {
    b.goalAmount - b.spentAmount
  }

  /** Both the percentage and the progress bar switch to the destructive style above 100%. */
  predicate Destructive(b: BudgetGoal)
    ensures Destructive(b) ==> b.goalAmount > 0 && b.spentAmount > b.goalAmount
  {
    Progress(b) > 100.0
  }

  /** The line under the bar: an amount left, or an amount over budget. */
  datatype Note = Left(amount: int) | OverBudget(amount: int)

  function RemainingNote(b: BudgetGoal): (n: Note)
    ensures n.Left? <==> b.spentAmount <= b.goalAmount
    ensures n.amount >= 0
    ensures n.Left? ==> n.amount + b.spentAmount == b.goalAmount
    ensures n.OverBudget? ==> n.amount == b.spentAmount - b.goalAmount
  {
    var r := Remaining(b);
    if r >= 0 then Left(r) else OverBudget(-r)
  }

  /** With a positive goal, the card is destructive exactly when more than the goal was spent. */
  lemma DestructiveIffOverspent(b: BudgetGoal)
    requires b.goalAmount > 0
    ensures Destructive(b) <==> b.spentAmount > b.goalAmount
  {
    var p, g, s := Progress(b), b.goalAmount as real, b.spentAmount as real;
    assert p * g == s * 100.0;
    if p > 100.0 {
      assert p * g > 100.0 * g;
    } else {
      assert p * g <= 100.0 * g;
    }
  }

  /** With a positive goal, the destructive style and the over-budget line go together. */
  lemma DestructiveIffOverBudgetNote(b: BudgetGoal)
    requires b.goalAmount > 0
    ensures Destructive(b) <==> RemainingNote(b).OverBudget?
  {
    DestructiveIffOverspent(b);
  }

  /**
   * With a goal of zero or less, any spending above the goal is reported as
   * over budget while the bar stays at 0% and is not destructive.
   */
  lemma NonPositiveGoalNeverDestructive(b: BudgetGoal)
    requires b.goalAmount <= 0 && b.spentAmount > b.goalAmount
    ensures Progress(b) == 0.0 && !Destructive(b)
    ensures RemainingNote(b) == OverBudget(b.spentAmount - b.goalAmount)
  {
  }
}
