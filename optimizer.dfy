/** The budget check of an intervention (backend/app/services/optimizer.py).

    An action's cost comes from a fixed table; whether it is carried out is
    the value of the binary variable of a one-variable linear program,
    "maximise x * risk subject to x * cost <= budget". The LP solver is a
    foreign library; here it is a parameter, and all that is assumed of it
    is that a chosen action respects the constraint. */
module Optimizer {
  /** The cost of each action the optimizer knows, in dollars. */
  const CostTable: map<string, nat> :=
    map["No_Action" := 0, "10%_Discount" := 15, "Free_Upgrade" := 5, "Priority_Support" := 25]

  /** `costs.get(action, 0)`: the table cost, and 0 for an unknown action. */
  function CostOf(action: string): (c: nat)
    ensures action in CostTable ==> c == CostTable[action]
    ensures c in CostTable.Values
    ensures c == 0 <==> action !in {"10%_Discount", "Free_Upgrade", "Priority_Support"}
  {
    if action in CostTable then CostTable[action]
    else assert CostTable["No_Action"] == 0; 0
  }

  /** The solver's answer for the problem with the given cost coefficient,
      objective coefficient (the risk score) and budget: true iff x = 1. */
  type Solver = (real, real, real) -> bool

  /** The solver's contract: it never sets x = 1 against the constraint. */
  ghost predicate RespectsBudget(solve: Solver)
  {
    forall cost, risk, budget :: solve(cost, risk, budget) ==> cost <= budget
  }

  /** One optimal solution of the program: take the action when it fits the
      budget and reduces some risk. */
  function ExactSolve(cost: real, risk: real, budget: real): (x: bool)
    ensures x ==> cost <= budget
    ensures x ==> risk > 0.0
    ensures cost <= budget && risk > 0.0 ==> x
  {
    cost <= budget && risk > 0.0
  }

  /** No choice allowed by the constraint reaches a higher objective value
      than `ExactSolve`'s. */
  lemma ExactSolveOptimal(cost: real, risk: real, budget: real, x: bool)
    requires 0.0 <= cost && 0.0 <= budget
    requires x ==> cost <= budget
    ensures (if x then risk else 0.0) <= (if ExactSolve(cost, risk, budget) then risk else 0.0)
  {
  }

  lemma ExactSolveRespectsBudget()
    ensures RespectsBudget(ExactSolve)
  {
  }

  /** The optimizer's answer: feasibility and the action's cost. */
  datatype Decision = Decision(feasible: bool, cost: nat)

  /** `optimize_intervention`: the cost is reported whether or not the action
      is feasible, and a feasible action fits the budget. */
  function OptimizeIntervention(action: string, risk: real, budget: real, solve: Solver): (d: Decision)
    requires RespectsBudget(solve)
    ensures d.cost == CostOf(action)
    ensures d.feasible ==> d.cost as real <= budget
    ensures budget < 0.0 ==> !d.feasible
  {
    var cost := CostOf(action);
    Decision(solve(cost as real, risk, budget), cost)
  }
}
