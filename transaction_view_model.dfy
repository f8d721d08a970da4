/**
 * presentation/transaction/TransactionViewModel.kt: the transaction list screen's
 * state holder. Each intent is a start transition, then the repository's outcome
 * (a parameter here), then any reload the code triggers.
 */
module TransactionViewModel {
  import opened Wrappers
  import opened Domain
  import opened TransactionRepository

  datatype TransactionState = TransactionState(
    isLoading: bool,
    errorMessage: Option<string>,
    transactions: seq<Transaction>,
    categories: seq<Category>,
    isTransactionCreated: bool,
    filterType: Option<string>)

  /** `TransactionState()` with every default. */
  const DefaultState: TransactionState := TransactionState(false, None, [], [], false, None)

  /** The list screen always asks for the first 50 transactions of the chosen type. */
  function ListQuery(transactionType: Option<string>): (q: TransactionsQuery)
    ensures q.page == 1 && q.limit == 50 && q.transactionType == transactionType
  {
    TransactionsQuery(1, 50, transactionType)
  }

  class TransactionViewModel {
    var state: TransactionState
    /** The list request `init` issues. */
    const initQuery: TransactionsQuery

    /** `init`: load every transaction, then the categories. */
    constructor (transactions: Result<seq<Transaction>, string>, categories: Result<seq<Category>, string>)
      ensures !state.isLoading && !state.isTransactionCreated && state.filterType.None?
      ensures state.transactions == (if transactions.Success? then transactions.value else [])
      ensures state.errorMessage == (if transactions.Success? then None else Some(transactions.error))
      ensures state.categories == (if categories.Success? then categories.value else [])
      ensures initQuery == ListQuery(None)
    {
      state := DefaultState;
      initQuery := ListQuery(None);
      new;
      var query := LoadTransactions(None, transactions);
      assert query == initQuery;
      LoadCategories(categories);
    }

    /**
     * loadTransactions(type): records the filter and clears the error; a success
     * replaces the list wholesale, a failure keeps it and shows the message.
     */
    method LoadTransactions(transactionType: Option<string>, outcome: Result<seq<Transaction>, string>)
      returns (query: TransactionsQuery)
      modifies this
      ensures query == ListQuery(transactionType)
      ensures outcome.Success? ==>
        state == old(state).(isLoading := false, errorMessage := None, filterType := transactionType, transactions := outcome.value)
      ensures outcome.Failure? ==>
        state == old(state).(isLoading := false, errorMessage := Some(outcome.error), filterType := transactionType)
    {
      state := state.(isLoading := true, errorMessage := None, filterType := transactionType);
      query := ListQuery(transactionType);
      match outcome
      case Success(transactions) =>
        state := state.(transactions := transactions, isLoading := false);
      case Failure(message) =>
        state := state.(errorMessage := Some(message), isLoading := false);
    }

    /** loadCategories: only a success has an effect; a failure is silent. */
    method LoadCategories(outcome: Result<seq<Category>, string>)
      modifies this
      ensures outcome.Success? ==> state == old(state).(categories := outcome.value)
      ensures outcome.Failure? ==> state == old(state)
    {
      if outcome.Success? {
        state := state.(categories := outcome.value);
      }
    }

    /** createTransaction: the created flag is reset at the start and set only by a success. */
    method CreateTransaction(outcome: Result<Transaction, string>)
      modifies this
      ensures !state.isLoading
      ensures state.isTransactionCreated <==> outcome.Success?
      ensures outcome.Success? ==> state == old(state).(isLoading := false, errorMessage := None, isTransactionCreated := true)
      ensures outcome.Failure? ==>
        state == old(state).(isLoading := false, errorMessage := Some(outcome.error), isTransactionCreated := false)
    {
      state := state.(isLoading := true, errorMessage := None, isTransactionCreated := false);
      match outcome
      case Success(_) =>
        state := state.(isLoading := false, isTransactionCreated := true);
      case Failure(message) =>
        state := state.(errorMessage := Some(message), isLoading := false);
    }

    /** createCategory: a success reloads the categories; the start does not clear the error. */
    method CreateCategory(outcome: Result<Category, string>, reload: Result<seq<Category>, string>)
      modifies this
      ensures !state.isLoading
      ensures outcome.Success? ==>
        state == old(state).(isLoading := false, categories := if reload.Success? then reload.value else old(state).categories)
      ensures outcome.Failure? ==> state == old(state).(isLoading := false, errorMessage := Some(outcome.error))
    {
      state := state.(isLoading := true);
      match outcome
      case Success(_) =>
        LoadCategories(reload);
        state := state.(isLoading := false);
      case Failure(message) =>
        state := state.(errorMessage := Some(message), isLoading := false);
    }

    /** deleteTransaction: a success reloads the list with the filter in force. */
    method DeleteTransaction(outcome: Result<string, string>, reload: Result<seq<Transaction>, string>)
      returns (reloadQuery: Option<TransactionsQuery>)
      modifies this
      ensures !state.isLoading
      ensures outcome.Success? ==> reloadQuery == Some(ListQuery(old(state).filterType))
      ensures outcome.Success? && reload.Success? ==>
        state == old(state).(isLoading := false, errorMessage := None, transactions := reload.value)
      ensures outcome.Success? && reload.Failure? ==>
        state == old(state).(isLoading := false, errorMessage := Some(reload.error))
      ensures outcome.Failure? ==>
        reloadQuery.None? && state == old(state).(isLoading := false, errorMessage := Some(outcome.error))
    {
      state := state.(isLoading := true);
      match outcome
      case Success(_) =>
        var query := LoadTransactions(state.filterType, reload);
        reloadQuery := Some(query);
      case Failure(message) =>
        state := state.(errorMessage := Some(message), isLoading := false);
        reloadQuery := None;
    }

    method ClearError()
      modifies this
      ensures state == old(state).(errorMessage := None)
    {
      state := state.(errorMessage := None);
    }

    method ResetTransactionCreated()
      modifies this
      ensures state == old(state).(isTransactionCreated := false)
    {
      state := state.(isTransactionCreated := false);
    }
  }
}
