/** data/repository/HomeRepository.kt: the four reads behind the home screen. */
module HomeRepository {
  import opened Wrappers
  import opened Domain
  import opened Dto
  import opened Envelope
  import TransactionRepository

  /** The summary mapping: the four figures copied unchanged. */
  function ToSummary(dto: TransactionSummaryDto): (s: TransactionSummary)
    ensures s.totalIncome == dto.totalIncome && s.totalExpense == dto.totalExpense
    ensures s.balance == dto.balance && s.transactionCount == dto.transactionCount
  {
    TransactionSummary(dto.totalIncome, dto.totalExpense, dto.balance, dto.transactionCount)
  }

  function GetTransactionSummary(response: Response<TransactionSummaryDto>): (res: Result<TransactionSummary, string>)
    ensures res.Success? <==> Accepted(response) && BodyData(response).Some?
    ensures res.Success? ==> res.value == ToSummary(BodyData(response).value)
    ensures Accepted(response) && BodyData(response).None? ==> res == Failure("Data summary tidak tersedia")
    ensures response.Resp? && !Accepted(response) ==> res == Failure(Rejection(response, "Gagal mengambil summary"))
    ensures response.Exn? ==> res == Failure(ConnectionFailure(response.exnMessage))
  {
    Single(response, ToSummary, "Data summary tidak tersedia", "Gagal mengambil summary")
  }

  /** getRecentTransactions always asks for the first page, `limit` items, unfiltered. */
  function RecentTransactionsQuery(limit: int): (q: TransactionRepository.TransactionsQuery)
    ensures q.page == 1 && q.limit == limit && q.transactionType.None?
  {
    TransactionRepository.TransactionsQuery(1, limit, None)
  }

  function GetRecentTransactions(response: Response<TransactionsResponseDto>): (res: Result<seq<Transaction>, string>)
    ensures res.Success? <==> Accepted(response)
    ensures Accepted(response) && BodyData(response).None? ==> res == Success([])
    ensures Accepted(response) && BodyData(response).Some? ==>
      InOrder(ToTransaction, BodyData(response).value.transactions, res.value)
    ensures response.Resp? && !Accepted(response) ==> res == Failure(Rejection(response, "Gagal mengambil transaksi"))
    ensures response.Exn? ==> res == Failure(ConnectionFailure(response.exnMessage))
  {
    Many(response, (p: TransactionsResponseDto) => p.transactions, ToTransaction, "Gagal mengambil transaksi")
  }

  /** The recent list and the full list read the same page the same way. */
  lemma RecentAgreesWithAll(response: Response<TransactionsResponseDto>)
    ensures GetRecentTransactions(response) == TransactionRepository.GetAllTransactions(response)
  {
  }

  function GetCategories(response: Response<seq<CategoryDto>>): (res: Result<seq<Category>, string>)
    ensures res.Success? <==> Accepted(response)
    ensures Accepted(response) && BodyData(response).None? ==> res == Success([])
    ensures Accepted(response) && BodyData(response).Some? ==> InOrder(ToCategory, BodyData(response).value, res.value)
    ensures response.Resp? && !Accepted(response) ==> res == Failure(Rejection(response, "Gagal mengambil kategori"))
    ensures response.Exn? ==> res == Failure(ConnectionFailure(response.exnMessage))
  {
    Many(response, (l: seq<CategoryDto>) => l, ToCategory, "Gagal mengambil kategori")
  }

  /** getUserProfile here keeps only the username. */
  function GetUserProfile(response: Response<UserDto>): (res: Result<string, string>)
    ensures res.Success? <==> Accepted(response) && BodyData(response).Some?
    ensures res.Success? ==> res.value == BodyData(response).value.username
    ensures Accepted(response) && BodyData(response).None? ==> res == Failure("Data user tidak tersedia")
    ensures response.Resp? && !Accepted(response) ==> res == Failure(Rejection(response, "Gagal mengambil profil"))
    ensures response.Exn? ==> res == Failure(ConnectionFailure(response.exnMessage))
  {
    Single(response, (u: UserDto) => u.username, "Data user tidak tersedia", "Gagal mengambil profil")
  }
}
