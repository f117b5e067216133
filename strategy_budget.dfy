/**
 * The budget-maximising strategy: its problem maximises the total cost of the
 * selection and adds no constraint of its own.
 */
module StrategyBudget {
  import opened Wrappers
  import opened Lp

  /** `StrategyMaxBudget.get_problem`: maximise `TotalCost`, no constraints yet. */
  function MaxBudgetProblem(sc: Scaffold): (p: Problem)
    ensures p.sense == Maximise && p.objective == Some(TotalCost)
    ensures p.scaffold == sc && p.constraints == []
  {
    Problem("StrategyMaxBudget", Maximise, Some(TotalCost), sc, [])
  }

  /**
   * Once the scaffold's constraints are added, an optimal answer is a feasible
   * selection whose total price no other feasible selection exceeds.
   */
  lemma MaxBudgetOptimalMaximisesCost(sc: Scaffold, sel: Selection, other: Selection)
    requires Optimal(MaxBudgetProblem(sc).(constraints := ScaffoldConstraints(sc)), sel)
    requires Feasible(sc, ScaffoldConstraints(sc), other)
    ensures Feasible(sc, ScaffoldConstraints(sc), sel)
    ensures Cost(sc, other) <= Cost(sc, sel)
  {
  }
}
