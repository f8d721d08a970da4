/**
 * The domain model (domain/model/Transaction.kt): immutable value objects that the
 * repositories produce from DTOs. Kotlin `Double` amounts are carried as opaque
 * `real`s and never computed with; a Kotlin `String?` is an `Option<string>`.
 */
module Domain {
  import opened Wrappers

  /** Exactly two transaction kinds; a category reuses the same type. */
  datatype TransactionType = INCOME | EXPENSE

  datatype Category = Category(id: string, name: string, categoryType: TransactionType)

  /** Only `description` and `category` are optional. */
  datatype Transaction = Transaction(
    id: string,
    userId: string,
    categoryId: string,
    transactionType: TransactionType,
    nominal: real,
    description: Option<string>,
    date: string,
    createdAt: string,
    category: Option<Category>)

  datatype TransactionSummary = TransactionSummary(
    totalIncome: real,
    totalExpense: real,
    balance: real,
    transactionCount: int)

  datatype FillingPlan = DAILY | WEEKLY | MONTHLY

  /** `progress` is a stored field as the server sent it, not derived from the amounts. */
  datatype Saving = Saving(
    id: string,
    name: string,
    targetAmount: real,
    currentAmount: real,
    fillingPlan: FillingPlan,
    progress: real,
    userId: string,
    createdAt: string,
    updatedAt: string)

  datatype BudgetType = DAILY | WEEKLY | MONTHLY

  /** `spent`, `remaining` and `percentage` are stored fields, not derived from `amount`. */
  datatype Budget = Budget(
    id: string,
    amount: real,
    budgetType: BudgetType,
    month: int,
    year: int,
    notes: Option<string>,
    categoryId: string,
    userId: string,
    category: Option<Category>,
    spent: real,
    remaining: real,
    percentage: real,
    createdAt: string,
    updatedAt: string)

  datatype Recurrence = NONE | DAILY | WEEKLY | MONTHLY

  datatype Reminder = Reminder(
    id: string,
    name: string,
    dueDate: string,
    amount: real,
    recurrence: Recurrence,
    notes: Option<string>,
    isPaid: bool,
    userId: string,
    createdAt: string,
    updatedAt: string)

  datatype Article = Article(
    id: string,
    title: string,
    content: string,
    publishedDate: string,
    createdAt: string,
    updatedAt: string)

  datatype UserProfile = UserProfile(
    id: string,
    username: string,
    email: string,
    firstName: Option<string>,
    lastName: Option<string>,
    phoneNumber: Option<string>,
    bio: Option<string>,
    createdAt: string,
    updatedAt: string)

  /** The enum constant's `name`, as the app writes it into request bodies. */
  function TransactionTypeName(t: TransactionType): string {
    match t
    case INCOME => "INCOME"
    case EXPENSE => "EXPENSE"
  }

  function FillingPlanName(p: FillingPlan): string {
    match p
    case DAILY => "DAILY"
    case WEEKLY => "WEEKLY"
    case MONTHLY => "MONTHLY"
  }

  function BudgetTypeName(b: BudgetType): string {
    match b
    case DAILY => "DAILY"
    case WEEKLY => "WEEKLY"
    case MONTHLY => "MONTHLY"
  }

  function RecurrenceName(r: Recurrence): string {
    match r
    case NONE => "NONE"
    case DAILY => "DAILY"
    case WEEKLY => "WEEKLY"
    case MONTHLY => "MONTHLY"
  }
}
