/** presentation/budget/BudgetScreen.kt: month names, the percentage colour and the delete dialog. */
module BudgetScreen {
  import opened Wrappers
  import opened Domain
  import opened BudgetRepository
  import opened BudgetViewModel

  const MonthNames: seq<string> := [
    "Januari", "Februari", "Maret", "April", "Mei", "Juni",
    "Juli", "Agustus", "September", "Oktober", "November", "Desember"]

  /** getMonthName: the Indonesian name of months 1 to 12, "Unknown" for any other number. */
  function GetMonthName(month: int): (name: string)
    ensures 1 <= month <= 12 ==> name == MonthNames[month - 1]
    ensures !(1 <= month <= 12) ==> name == "Unknown"
  {
    if 1 <= month <= 12 then MonthNames[month - 1] else "Unknown"
  }

  /** Twelve different names, none of them "Unknown": a month can be read back from its name. */
  lemma MonthNamesInjective(a: int, b: int)
    requires GetMonthName(a) == GetMonthName(b)
    requires 1 <= a <= 12
    ensures a == b
  {
  }

  /** The colour of a budget's percentage. */
  datatype PercentageColor = IncomeGreen | Orange | ExpenseRed

  /** How alarming a colour is: green, then orange, then red. */
  function Severity(c: PercentageColor): nat {
    match c
    case IncomeGreen => 0
    case Orange => 1
    case ExpenseRed => 2
  }

  /** Red from 90, orange from 70, green below: every percentage gets exactly one band. */
  function PercentageBand(percentage: real): (c: PercentageColor)
    ensures c == ExpenseRed <==> percentage >= 90.0
    ensures c == Orange <==> 70.0 <= percentage < 90.0
    ensures c == IncomeGreen <==> percentage < 70.0
  {
    if percentage >= 90.0 then ExpenseRed
    else if percentage >= 70.0 then Orange
    else IncomeGreen
  }

  /** Spending more never makes the colour less alarming. */
  lemma PercentageBandMonotone(p: real, q: real)
    requires p <= q
    ensures Severity(PercentageBand(p)) <= Severity(PercentageBand(q))
  {
  }

  /** The delete dialog's confirm: the repository gets the budget's own id, the reload its own month and year. */
  method ConfirmDelete(viewModel: BudgetViewModel, budget: Budget, outcome: Result<string, string>, reload: Result<seq<Budget>, string>)
    returns (targetId: string, reloadQuery: Option<BudgetsQuery>)
    modifies viewModel
    ensures targetId == budget.id
    ensures outcome.Success? ==> reloadQuery == Some(BudgetsQuery(Some(budget.month), Some(budget.year)))
    ensures outcome.Success? ==>
      viewModel.state == LoadedBudgets(old(viewModel.state).(successMessage := Some("Anggaran berhasil dihapus")), reload)
    ensures outcome.Failure? ==> reloadQuery.None?
    ensures outcome.Failure? ==>
      viewModel.state == old(viewModel.state).(isLoading := false, errorMessage := Some(outcome.error))
  {
    targetId := budget.id;
    reloadQuery := viewModel.DeleteBudget(budget.month, budget.year, outcome, reload);
  }
}
