/**
 * presentation/budget/BudgetViewModel.kt: the budgets screen's state holder. The
 * month and year of `LocalDate.now()` that `init` reads are parameters here.
 */
module BudgetViewModel {
  import opened Wrappers
  import opened Domain
  import opened BudgetRepository

  datatype BudgetState = BudgetState(
    isLoading: bool,
    errorMessage: Option<string>,
    successMessage: Option<string>,
    budgets: seq<Budget>,
    categories: seq<Category>,
    isBudgetCreated: bool)

  const DefaultState: BudgetState := BudgetState(false, None, None, [], [], false)

  /** The state after loadBudgets with the given outcome. */
  function LoadedBudgets(s: BudgetState, outcome: Result<seq<Budget>, string>): (t: BudgetState)
    ensures !t.isLoading && t.successMessage == s.successMessage && t.categories == s.categories
    ensures t.isBudgetCreated == s.isBudgetCreated
    ensures t.errorMessage == (if outcome.Success? then None else Some(outcome.error))
    ensures t.budgets == (if outcome.Success? then outcome.value else s.budgets)
  {
    if outcome.Success? then s.(isLoading := false, errorMessage := None, budgets := outcome.value)
    else s.(isLoading := false, errorMessage := Some(outcome.error))
  }

  class BudgetViewModel {
    var state: BudgetState
    /** The list request `init` issues. */
    const initQuery: BudgetsQuery

    /** `init`: the budgets of the current month, then the categories. */
    constructor (month: int, year: int, budgets: Result<seq<Budget>, string>, categories: Result<seq<Category>, string>)
      ensures state == LoadedBudgets(DefaultState, budgets).(categories := if categories.Success? then categories.value else [])
      ensures initQuery == BudgetsQuery(Some(month), Some(year))
    {
      state := DefaultState;
      initQuery := BudgetsQuery(Some(month), Some(year));
      new;
      var query := LoadBudgets(Some(month), Some(year), budgets);
      assert query == initQuery;
      LoadCategories(categories);
    }

    /** loadBudgets(month, year): a success replaces the budgets, a failure keeps them. */
    method LoadBudgets(month: Option<int>, year: Option<int>, outcome: Result<seq<Budget>, string>)
      returns (query: BudgetsQuery)
      modifies this
      ensures query == BudgetsQuery(month, year)
      ensures state == LoadedBudgets(old(state), outcome)
    {
      state := state.(isLoading := true, errorMessage := None);
      query := BudgetsQuery(month, year);
      match outcome
      case Success(budgets) =>
        state := state.(budgets := budgets, isLoading := false);
      case Failure(message) =>
        state := state.(errorMessage := Some(message), isLoading := false);
    }

    /** loadCategories: a failure is silent. */
    method LoadCategories(outcome: Result<seq<Category>, string>)
      modifies this
      ensures outcome.Success? ==> state == old(state).(categories := outcome.value)
      ensures outcome.Failure? ==> state == old(state)
    {
      if outcome.Success? {
        state := state.(categories := outcome.value);
      }
    }

    /** createBudget: a success raises the created flag and reloads the same month and year. */
    method CreateBudget(month: int, year: int, outcome: Result<Budget, string>, reload: Result<seq<Budget>, string>)
      returns (reloadQuery: Option<BudgetsQuery>)
      modifies this
      ensures !state.isLoading
      ensures outcome.Success? ==> reloadQuery == Some(BudgetsQuery(Some(month), Some(year)))
      ensures outcome.Success? ==>
        state == LoadedBudgets(old(state).(isBudgetCreated := true, successMessage := Some("Anggaran berhasil dibuat")), reload)
      ensures outcome.Failure? ==> reloadQuery.None?
      ensures outcome.Failure? ==>
        state == old(state).(isLoading := false, errorMessage := Some(outcome.error), isBudgetCreated := false)
    {
      state := state.(isLoading := true, errorMessage := None, isBudgetCreated := false);
      match outcome
      case Success(_) =>
        state := state.(isLoading := false, isBudgetCreated := true, successMessage := Some("Anggaran berhasil dibuat"));
        var query := LoadBudgets(Some(month), Some(year), reload);
        reloadQuery := Some(query);
      case Failure(message) =>
        state := state.(errorMessage := Some(message), isLoading := false);
        reloadQuery := None;
    }

    /** deleteBudget(id, month, year): a success reloads the month and year passed in. */
    method DeleteBudget(month: int, year: int, outcome: Result<string, string>, reload: Result<seq<Budget>, string>)
      returns (reloadQuery: Option<BudgetsQuery>)
      modifies this
      ensures !state.isLoading
      ensures outcome.Success? ==> reloadQuery == Some(BudgetsQuery(Some(month), Some(year)))
      ensures outcome.Success? ==>
        state == LoadedBudgets(old(state).(successMessage := Some("Anggaran berhasil dihapus")), reload)
      ensures outcome.Failure? ==> reloadQuery.None?
      ensures outcome.Failure? ==>
        state == old(state).(isLoading := false, errorMessage := Some(outcome.error))
    {
      state := state.(isLoading := true);
      match outcome
      case Success(_) =>
        state := state.(successMessage := Some("Anggaran berhasil dihapus"), isLoading := false);
        var query := LoadBudgets(Some(month), Some(year), reload);
        reloadQuery := Some(query);
      case Failure(message) =>
        state := state.(errorMessage := Some(message), isLoading := false);
        reloadQuery := None;
    }

    method ClearMessages()
      modifies this
      ensures state == old(state).(errorMessage := None, successMessage := None)
    {
      state := state.(errorMessage := None, successMessage := None);
    }

    method ResetBudgetCreated()
      modifies this
      ensures state == old(state).(isBudgetCreated := false)
    {
      state := state.(isBudgetCreated := false);
    }
  }
}
