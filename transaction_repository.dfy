/** data/repository/TransactionRepository.kt: create, list and delete transactions. */
module TransactionRepository {
  import opened Wrappers
  import opened Domain
  import opened Dto
  import opened Envelope

  /** The query parameters of the transactions endpoint. */
  datatype TransactionsQuery = TransactionsQuery(page: int, limit: int, transactionType: Option<string>)

  /**
   * The `buildMap` body of createTransaction: four fixed keys, then `description`
   * only when one was given.
   */
  method CreateTransactionBody(categoryId: string, transactionType: string, nominal: real, description: Option<string>, date: string)
    returns (body: map<string, BodyValue>)
    ensures body.Keys == {"categoryId", "type", "nominal", "date"} + (if description.Some? then {"description"} else {})
    ensures body["categoryId"] == StringValue(categoryId) && body["type"] == StringValue(transactionType)
    ensures body["nominal"] == DoubleValue(nominal) && body["date"] == StringValue(date)
    ensures description.Some? ==> body["description"] == StringValue(description.value)
  {
    body := map[];
    body := body["categoryId" := StringValue(categoryId)];
    body := body["type" := StringValue(transactionType)];
    body := body["nominal" := DoubleValue(nominal)];
    body := body["date" := StringValue(date)];
    if description.Some? {
      body := body["description" := StringValue(description.value)];
    }
  }

  /**
   * The mapping createTransaction and getAllTransactions each write out in place,
   * decoder and nested category included.
   */
  function InlineTransaction(dto: TransactionDto): (t: Transaction)
    ensures t.id == dto.id && t.userId == dto.userId && t.categoryId == dto.categoryId
    ensures t.nominal == dto.nominal && t.description == dto.description
    ensures t.date == dto.date && t.createdAt == dto.createdAt
    ensures t.transactionType == INCOME <==> dto.transactionType == "INCOME"
    ensures t.category.None? <==> dto.category.None?
    ensures dto.category.Some? ==> t.category.value.id == dto.category.value.id
    ensures dto.category.Some? ==> t.category.value.name == dto.category.value.name
    ensures dto.category.Some? ==> (t.category.value.categoryType == INCOME <==> dto.category.value.categoryType == "INCOME")
  {
    var decode := (s: string) => if s == "INCOME" then INCOME else if s == "EXPENSE" then EXPENSE else EXPENSE;
    Transaction(
      dto.id, dto.userId, dto.categoryId, decode(dto.transactionType),
      dto.nominal, dto.description, dto.date, dto.createdAt,
      match dto.category
      case None => None
      case Some(c) => Some(Category(c.id, c.name, decode(c.categoryType))))
  }

  /** The written-out mapping is `toTransaction`, so the model shares one function. */
  lemma InlineIsToTransaction(dto: TransactionDto)
    ensures InlineTransaction(dto) == ToTransaction(dto)
  {
  }

  /** createTransaction's decision over the server's answer. */
  function CreateTransaction(response: Response<TransactionDto>): (res: Result<Transaction, string>)
    ensures res.Success? <==> Accepted(response) && BodyData(response).Some?
    ensures res.Success? ==> res.value == ToTransaction(BodyData(response).value)
    ensures Accepted(response) && BodyData(response).None? ==> res == Failure("Data transaksi tidak valid")
    ensures response.Resp? && !Accepted(response) ==> res == Failure(Rejection(response, "Gagal membuat transaksi"))
    ensures response.Exn? ==> res == Failure(ConnectionFailure(response.exnMessage))
  {
    Single(response, ToTransaction, "Data transaksi tidak valid", "Gagal membuat transaksi")
  }

  /** getAllTransactions: the page's transactions, in order; a missing page is an empty list. */
  function GetAllTransactions(response: Response<TransactionsResponseDto>): (res: Result<seq<Transaction>, string>)
    ensures res.Success? <==> Accepted(response)
    ensures Accepted(response) && BodyData(response).None? ==> res == Success([])
    ensures Accepted(response) && BodyData(response).Some? ==>
      InOrder(ToTransaction, BodyData(response).value.transactions, res.value)
    ensures response.Resp? && !Accepted(response) ==> res == Failure(Rejection(response, "Gagal mengambil transaksi"))
    ensures response.Exn? ==> res == Failure(ConnectionFailure(response.exnMessage))
  {
    Many(response, (p: TransactionsResponseDto) => p.transactions, ToTransaction, "Gagal mengambil transaksi")
  }

  /** deleteTransaction: the server's message, else a fixed confirmation. */
  function DeleteTransaction(response: Response<()>): (res: Result<string, string>)
    ensures res.Success? <==> Accepted(response)
    ensures res.Success? ==> res.value == BodyMessage(response).GetOr("Transaksi berhasil dihapus")
    ensures response.Resp? && !Accepted(response) ==> res == Failure(Rejection(response, "Gagal menghapus transaksi"))
    ensures response.Exn? ==> res == Failure(ConnectionFailure(response.exnMessage))
  {
    MessageOnly(response, "Transaksi berhasil dihapus", "Gagal menghapus transaksi")
  }
}
