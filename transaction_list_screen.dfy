/**
 * presentation/transaction/TransactionListScreen.kt: the three type filter chips.
 * Dates and amount signs use the home screen's helpers, which this screen repeats
 * word for word.
 */
module TransactionListScreen {
  import opened Wrappers
  import opened Domain
  import opened TransactionRepository
  import opened TransactionViewModel

  datatype TypeChip = AllChip | IncomeChip | ExpenseChip

  /** The filter value a chip stands for: "Semua" none, "Pemasukan" INCOME, "Pengeluaran" EXPENSE. */
  function ChipValue(c: TypeChip): (v: Option<string>)
    ensures v.None? <==> c == AllChip
    ensures v == Some("INCOME") <==> c == IncomeChip
    ensures v == Some("EXPENSE") <==> c == ExpenseChip
  {
    match c
    case AllChip => None
    case IncomeChip => Some("INCOME")
    case ExpenseChip => Some("EXPENSE")
  }

  /** A chip is drawn selected when the state's filter equals its value. */
  predicate Selected(c: TypeChip, filterType: Option<string>) {
    filterType == ChipValue(c)
  }

  /** No two chips are ever selected together. */
  lemma AtMostOneSelected(c: TypeChip, d: TypeChip, filterType: Option<string>)
    requires Selected(c, filterType) && Selected(d, filterType)
    ensures c == d
  {
  }

  /** A filter the list screen can produce selects some chip. */
  lemma SomeChipSelected(filterType: Option<string>)
    requires filterType in {None, Some("INCOME"), Some("EXPENSE")}
    ensures exists c :: Selected(c, filterType)
  {
    if filterType.None? {
      assert Selected(AllChip, filterType);
    } else if filterType == Some("INCOME") {
      assert Selected(IncomeChip, filterType);
    } else {
      assert Selected(ExpenseChip, filterType);
    }
  }

  /**
   * Tapping a chip loads with its value, which makes it the selected chip; the list
   * is replaced on success and kept, beside the error, on failure.
   */
  method TapChip(viewModel: TransactionViewModel, c: TypeChip, outcome: Result<seq<Transaction>, string>)
    returns (query: TransactionsQuery)
    modifies viewModel
    ensures query == ListQuery(ChipValue(c))
    ensures Selected(c, viewModel.state.filterType)
    ensures forall d :: Selected(d, viewModel.state.filterType) ==> d == c
    ensures outcome.Success? ==>
      viewModel.state == old(viewModel.state).(isLoading := false, errorMessage := None, filterType := ChipValue(c), transactions := outcome.value)
    ensures outcome.Failure? ==>
      viewModel.state == old(viewModel.state).(isLoading := false, errorMessage := Some(outcome.error), filterType := ChipValue(c))
  {
    query := viewModel.LoadTransactions(ChipValue(c), outcome);
  }
}
