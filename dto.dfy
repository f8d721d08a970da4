/**
 * The JSON shapes the server sends (data/remote/dto) and the one mapping that lives
 * beside them, `TransactionDto.toTransaction`. Enumerations arrive as strings and are
 * decoded with a fixed fallback; every other field is copied unchanged.
 */
module Dto {
  import opened Wrappers
  import opened Domain

  datatype CategoryDto = CategoryDto(
    id: string,
    userId: Option<string>,
    name: string,
    categoryType: string,
    createdAt: Option<string>,
    updatedAt: Option<string>)

  datatype TransactionDto = TransactionDto(
    id: string,
    userId: string,
    categoryId: string,
    transactionType: string,
    nominal: real,
    description: Option<string>,
    date: string,
    createdAt: string,
    updatedAt: string,
    category: Option<CategoryDto>)

  datatype TransactionSummaryDto = TransactionSummaryDto(
    totalIncome: real,
    totalExpense: real,
    balance: real,
    transactionCount: int)

  /** One page of transactions. */
  datatype TransactionsResponseDto = TransactionsResponseDto(
    transactions: seq<TransactionDto>,
    total: int,
    page: int,
    totalPages: int)

  datatype BudgetDto = BudgetDto(
    id: string,
    amount: real,
    budgetType: string,
    month: int,
    year: int,
    notes: Option<string>,
    categoryId: string,
    userId: string,
    category: Option<CategoryDto>,
    spent: real,
    remaining: real,
    percentage: real,
    createdAt: string,
    updatedAt: string)

  datatype ReminderDto = ReminderDto(
    id: string,
    name: string,
    dueDate: string,
    amount: real,
    recurrence: string,
    notes: Option<string>,
    isPaid: bool,
    userId: string,
    createdAt: string,
    updatedAt: string)

  datatype SavingDto = SavingDto(
    id: string,
    name: string,
    targetAmount: real,
    currentAmount: real,
    fillingPlan: string,
    progress: real,
    userId: string,
    createdAt: string,
    updatedAt: string)

  datatype ArticleDto = ArticleDto(
    id: string,
    title: string,
    content: string,
    publishedDate: string,
    createdAt: string,
    updatedAt: string)

  /** One page of articles. */
  datatype ArticlesResponseDto = ArticlesResponseDto(
    articles: seq<ArticleDto>,
    total: int,
    page: int,
    totalPages: int)

  /**
   * The user record of the profile endpoints; its declaration is not part of this
   * model, so the shape is the one the repositories read from it.
   */
  datatype UserDto = UserDto(
    id: string,
    username: string,
    email: string,
    firstName: Option<string>,
    lastName: Option<string>,
    phoneNumber: Option<string>,
    bio: Option<string>,
    createdAt: Option<string>,
    updatedAt: Option<string>)

  /** The login payload, with the shape the login code reads from it. */
  datatype AuthUser = AuthUser(id: string, username: string, email: string)
  datatype AuthResponse = AuthResponse(accessToken: string, refreshToken: string, user: AuthUser)

  /** `when (type) { "INCOME" -> INCOME; "EXPENSE" -> EXPENSE; else -> EXPENSE }`. */
  function DecodeTransactionType(s: string): (t: TransactionType)
    ensures t == INCOME <==> s == "INCOME"
    ensures t == EXPENSE <==> s != "INCOME"
  {
    if s == "INCOME" then INCOME
    else if s == "EXPENSE" then EXPENSE
    else EXPENSE
  }

  /** Decoding the name of a type gives that type back. */
  lemma TransactionTypeRoundTrip(t: TransactionType)
    ensures DecodeTransactionType(TransactionTypeName(t)) == t
  {
  }

  /** The nested category: id, name and decoded type; userId and timestamps are dropped. */
  function ToCategory(dto: CategoryDto): (c: Category)
    ensures c.id == dto.id && c.name == dto.name
    ensures c.categoryType == DecodeTransactionType(dto.categoryType)
  {
    Category(dto.id, dto.name, DecodeTransactionType(dto.categoryType))
  }

  /** Two category records that differ only in the dropped fields map to the same category. */
  lemma ToCategoryIgnoresDroppedFields(a: CategoryDto, b: CategoryDto)
    requires a.id == b.id && a.name == b.name && a.categoryType == b.categoryType
    ensures ToCategory(a) == ToCategory(b)
  {
  }

  /** `category?.let { Category(...) }`: absent stays absent. */
  function ToOptionalCategory(dto: Option<CategoryDto>): (c: Option<Category>)
    ensures c.None? <==> dto.None?
    ensures dto.Some? ==> c.value == ToCategory(dto.value)
  {
    match dto
    case None => None
    case Some(d) => Some(ToCategory(d))
  }

  /** `TransactionDto.toTransaction`: a field-for-field copy except for the decoded type. */
  function ToTransaction(dto: TransactionDto): (t: Transaction)
    ensures t.id == dto.id && t.userId == dto.userId && t.categoryId == dto.categoryId
    ensures t.nominal == dto.nominal && t.description == dto.description
    ensures t.date == dto.date && t.createdAt == dto.createdAt
    ensures t.transactionType == DecodeTransactionType(dto.transactionType)
    ensures t.category == ToOptionalCategory(dto.category)
  {
    Transaction(
      dto.id, dto.userId, dto.categoryId, DecodeTransactionType(dto.transactionType),
      dto.nominal, dto.description, dto.date, dto.createdAt, ToOptionalCategory(dto.category))
  }

  /** `updatedAt` is not carried into the domain transaction. */
  lemma ToTransactionIgnoresUpdatedAt(dto: TransactionDto, updatedAt: string)
    ensures ToTransaction(dto.(updatedAt := updatedAt)) == ToTransaction(dto)
  {
  }
}
