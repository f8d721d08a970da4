/**
 * presentation/home/HomeViewModel.kt: the home screen's state holder. One load runs
 * three calls in sequence (profile, summary, recent transactions); each outcome is
 * a parameter.
 */
module HomeViewModel {
  import opened Wrappers
  import opened Domain
  import opened TransactionRepository
  import opened HomeRepository

  datatype HomeState = HomeState(
    isLoading: bool,
    errorMessage: Option<string>,
    username: string,
    summary: Option<TransactionSummary>,
    recentTransactions: seq<Transaction>)

  const DefaultState: HomeState := HomeState(false, None, "", None, [])

  /** The home screen shows the five most recent transactions. */
  const RecentLimit: int := 5

  /**
   * The state after the first two calls: the error cleared at the start, the
   * profile's failure silent, a summary failure shown, and still loading.
   */
  function AfterSummary(s: HomeState, profile: Result<string, string>, summary: Result<TransactionSummary, string>): (t: HomeState)
    ensures t.isLoading
    ensures t.username == (if profile.Success? then profile.value else s.username)
    ensures t.summary == (if summary.Success? then Some(summary.value) else s.summary)
    ensures t.errorMessage == (if summary.Success? then None else Some(summary.error))
    ensures t.recentTransactions == s.recentTransactions
  {
    var started := s.(isLoading := true, errorMessage := None);
    var afterProfile := if profile.Success? then started.(username := profile.value) else started;
    if summary.Success? then afterProfile.(summary := Some(summary.value))
    else afterProfile.(errorMessage := Some(summary.error))
  }

  /**
   * The state one loadHomeData leaves: only the last call ends the load, and its
   * failure message overwrites the summary's.
   */
  function HomeLoaded(s: HomeState, profile: Result<string, string>, summary: Result<TransactionSummary, string>,
                      recent: Result<seq<Transaction>, string>): (t: HomeState)
    ensures !t.isLoading
    ensures t.username == (if profile.Success? then profile.value else s.username)
    ensures t.summary == (if summary.Success? then Some(summary.value) else s.summary)
    ensures t.recentTransactions == (if recent.Success? then recent.value else s.recentTransactions)
    ensures t.errorMessage.None? <==> summary.Success? && recent.Success?
    ensures recent.Failure? ==> t.errorMessage == Some(recent.error)
    ensures recent.Success? && summary.Failure? ==> t.errorMessage == Some(summary.error)
  {
    var afterSummary := AfterSummary(s, profile, summary);
    if recent.Success? then afterSummary.(recentTransactions := recent.value, isLoading := false)
    else afterSummary.(errorMessage := Some(recent.error), isLoading := false)
  }

  class HomeViewModel {
    var state: HomeState
    /** The list request `init` issues. */
    const initQuery: TransactionsQuery

    /** `init`: one load. */
    constructor (profile: Result<string, string>, summary: Result<TransactionSummary, string>,
                 recent: Result<seq<Transaction>, string>)
      ensures state == HomeLoaded(DefaultState, profile, summary, recent)
      ensures initQuery == RecentTransactionsQuery(RecentLimit)
    {
      state := DefaultState;
      initQuery := RecentTransactionsQuery(RecentLimit);
      new;
      var query := LoadHomeData(profile, summary, recent);
      assert query == initQuery;
    }

    /** loadHomeData: clears the error, then applies the three outcomes in order. */
    method LoadHomeData(profile: Result<string, string>, summary: Result<TransactionSummary, string>,
                        recent: Result<seq<Transaction>, string>)
      returns (recentQuery: TransactionsQuery)
      modifies this
      ensures recentQuery == RecentTransactionsQuery(RecentLimit)
      ensures state == HomeLoaded(old(state), profile, summary, recent)
    {
      state := state.(isLoading := true, errorMessage := None);
      if profile.Success? {
        state := state.(username := profile.value);
      }
      match summary {
        case Success(value) =>
          state := state.(summary := Some(value));
        case Failure(message) =>
          state := state.(errorMessage := Some(message));
      }
      recentQuery := RecentTransactionsQuery(RecentLimit);
      match recent
      case Success(transactions) =>
        state := state.(recentTransactions := transactions, isLoading := false);
      case Failure(message) =>
        state := state.(errorMessage := Some(message), isLoading := false);
    }

    method ClearError()
      modifies this
      ensures state == old(state).(errorMessage := None)
    {
      state := state.(errorMessage := None);
    }
  }
}
