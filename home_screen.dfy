/**
 * presentation/home/HomeScreen.kt: the display helpers of the home screen.
 * `formatDate` and the sign prefix are also defined, with the same body, by the
 * transaction list and the reminder screens; they are defined once here.
 */
module HomeScreen {
  import opened Wrappers
  import opened Domain

  /**
   * formatDate: `substring(0, 10)`, and the input itself when that throws because
   * the input is shorter than ten characters.
   */
  function FormatDate(date: string): (d: string)
    ensures d <= date
    ensures |date| >= 10 ==> |d| == 10
    ensures |date| < 10 ==> d == date
  {
    if |date| >= 10 then date[..10] else date
  }

  /** Cutting a date that is already cut changes nothing. */
  lemma FormatDateIdempotent(date: string)
    ensures FormatDate(FormatDate(date)) == FormatDate(date)
  {
  }

  /** An ISO timestamp shows as its calendar date. */
  lemma FormatDateOfTimestamp(day: string, rest: string)
    requires |day| == 10
    ensures FormatDate(day + rest) == day
  {
    assert (day + rest)[..10] == day;
  }

  /** The sign written before an amount: "+" for income, "-" for expense. */
  function AmountPrefix(t: TransactionType): (p: string)
    ensures p == "+" <==> t == INCOME
    ensures p == "-" <==> t == EXPENSE
  {
    assert "+"[0] != "-"[0];
    match t
    case INCOME => "+"
    case EXPENSE => "-"
  }

  /** `username.ifEmpty { "User" }`. */
  function DisplayUsername(username: string): (shown: string)
    ensures shown != []
    ensures username != [] ==> shown == username
    ensures username == [] ==> shown == "User"
  {
    if username == [] then "User" else username
  }

  /** The three figures of the balance card, in the order balance, income, expense. */
  datatype BalanceFigures = BalanceFigures(balance: real, totalIncome: real, totalExpense: real)

  /** `summary?.balance ?: 0.0` and its two siblings. */
  function BalanceCard(summary: Option<TransactionSummary>): (f: BalanceFigures)
    ensures summary.None? ==> f == BalanceFigures(0.0, 0.0, 0.0)
    ensures summary.Some? ==> f.balance == summary.value.balance
    ensures summary.Some? ==> f.totalIncome == summary.value.totalIncome && f.totalExpense == summary.value.totalExpense
  {
    match summary
    case None => BalanceFigures(0.0, 0.0, 0.0)
    case Some(s) => BalanceFigures(s.balance, s.totalIncome, s.totalExpense)
  }
}
