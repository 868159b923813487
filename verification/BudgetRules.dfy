// Department budgets as they are meant: one dictionary, one operation at a time, and the locked in-memory
// repository that does them (services/payment/repository.py).
module BudgetRules {
  datatype Budget = Budget(department: string, total: real, remaining: real)

  datatype BudgetOp =
    | Seed(department: string, total: real)
    | Reserve(department: string, amount: real)
    | Release(department: string, amount: real)

  datatype BudgetResult = Done | InsufficientBudget | BudgetNotFound | BudgetCorruption

  function Perform(budgets: map<string, Budget>, op: BudgetOp): (map<string, Budget>, BudgetResult) {
    var d := op.department;
    match op
    case Seed(_, total) =>
      (if d in budgets then budgets else budgets[d := Budget(d, total, total)], Done)
    case Reserve(_, amount) =>
      if d !in budgets then (budgets, BudgetNotFound)
      else if budgets[d].remaining < amount then (budgets, InsufficientBudget)
      else (budgets[d := budgets[d].(remaining := budgets[d].remaining - amount)], Done)
    case Release(_, amount) =>
      if d !in budgets then (budgets, BudgetNotFound)
      else if budgets[d].remaining + amount > budgets[d].total then (budgets, BudgetCorruption)
      else (budgets[d := budgets[d].(remaining := budgets[d].remaining + amount)], Done)
  }

  class InMemoryBudgetRepository {
    var budgets: map<string, Budget>

    constructor ()
      ensures budgets == map[]
    {
      budgets := map[];
    }

    method EnsureSeeded(department: string, total: real)
      modifies this
      ensures budgets == Perform(old(budgets), Seed(department, total)).0
      ensures budgets == if department in old(budgets) then old(budgets)
                         else old(budgets)[department := Budget(department, total, total)]
    {
      if department !in budgets {
        budgets := budgets[department := Budget(department, total, total)];
      }
    }

    method ReserveAmount(department: string, amount: real) returns (result: BudgetResult)
      modifies this
      ensures (budgets, result) == Perform(old(budgets), Reserve(department, amount))
      ensures result == BudgetNotFound <==> department !in old(budgets)
      ensures result == InsufficientBudget <==>
                department in old(budgets) && old(budgets)[department].remaining < amount
      ensures result == Done ==>
                && department in old(budgets)
                && var budget := old(budgets)[department];
                   budgets == old(budgets)[department := Budget(budget.department, budget.total,
                       budget.remaining - amount)]
      ensures result != Done ==> budgets == old(budgets)
      ensures result != BudgetCorruption
    {
      if department !in budgets {
        return BudgetNotFound;
      }
      var budget := budgets[department];
      if budget.remaining < amount {
        return InsufficientBudget;
      }
      budgets := budgets[department := budget.(remaining := budget.remaining - amount)];
      return Done;
    }

    method ReleaseAmount(department: string, amount: real) returns (result: BudgetResult)
      modifies this
      ensures (budgets, result) == Perform(old(budgets), Release(department, amount))
      ensures result == BudgetNotFound <==> department !in old(budgets)
      ensures result == BudgetCorruption <==>
                && department in old(budgets)
                && old(budgets)[department].remaining + amount > old(budgets)[department].total
      ensures result == Done ==>
                && department in old(budgets)
                && var budget := old(budgets)[department];
                   budgets == old(budgets)[department := Budget(budget.department, budget.total,
                       budget.remaining + amount)]
      ensures result != Done ==> budgets == old(budgets)
      ensures result != InsufficientBudget
    {
      if department !in budgets {
        return BudgetNotFound;
      }
      var budget := budgets[department];
      var newRemaining := budget.remaining + amount;
      if newRemaining > budget.total {
        return BudgetCorruption;
      }
      budgets := budgets[department := budget.(remaining := newRemaining)];
      return Done;
    }
  }
}
