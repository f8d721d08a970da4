/** data/repository/BudgetRepository.kt: list, create and delete budgets. */
module BudgetRepository {
  import opened Wrappers
  import opened Domain
  import opened Dto
  import opened Envelope

  /** The query of the budgets endpoint: an optional month and year. */
  datatype BudgetsQuery = BudgetsQuery(month: Option<int>, year: Option<int>)

  /** The three period names decode to themselves; any other string is MONTHLY. */
  function DecodeBudgetType(s: string): (b: BudgetType)
    ensures b == BudgetType.DAILY <==> s == "DAILY"
    ensures b == BudgetType.WEEKLY <==> s == "WEEKLY"
    ensures b == BudgetType.MONTHLY <==> s != "DAILY" && s != "WEEKLY"
  {
    if s == "DAILY" then BudgetType.DAILY
    else if s == "WEEKLY" then BudgetType.WEEKLY
    else if s == "MONTHLY" then BudgetType.MONTHLY
    else BudgetType.MONTHLY
  }

  /** Decoding the name of a budget type gives that type back. */
  lemma BudgetTypeRoundTrip(b: BudgetType)
    ensures DecodeBudgetType(BudgetTypeName(b)) == b
  {
  }

  /**
   * The budget mapping: the nested category decoded like a transaction's, the
   * server's spent/remaining/percentage copied exactly.
   */
  function ToBudget(dto: BudgetDto): (b: Budget)
    ensures b.id == dto.id && b.amount == dto.amount && b.month == dto.month && b.year == dto.year
    ensures b.budgetType == DecodeBudgetType(dto.budgetType)
    ensures b.notes == dto.notes && b.categoryId == dto.categoryId && b.userId == dto.userId
    ensures b.category == ToOptionalCategory(dto.category)
    ensures b.spent == dto.spent && b.remaining == dto.remaining && b.percentage == dto.percentage
    ensures b.createdAt == dto.createdAt && b.updatedAt == dto.updatedAt
  {
    Budget(dto.id, dto.amount, DecodeBudgetType(dto.budgetType), dto.month, dto.year, dto.notes,
           dto.categoryId, dto.userId, ToOptionalCategory(dto.category),
           dto.spent, dto.remaining, dto.percentage, dto.createdAt, dto.updatedAt)
  }

  /** getBudgets (month and year only shape the request). */
  function GetBudgets(response: Response<seq<BudgetDto>>): (res: Result<seq<Budget>, string>)
    ensures res.Success? <==> Accepted(response)
    ensures Accepted(response) && BodyData(response).None? ==> res == Success([])
    ensures Accepted(response) && BodyData(response).Some? ==> InOrder(ToBudget, BodyData(response).value, res.value)
    ensures response.Resp? && !Accepted(response) ==> res == Failure(Rejection(response, "Gagal mengambil anggaran"))
    ensures response.Exn? ==> res == Failure(ConnectionFailure(response.exnMessage))
  {
    Many(response, (l: seq<BudgetDto>) => l, ToBudget, "Gagal mengambil anggaran")
  }

  /** The `buildMap` body of createBudget: five fixed keys, and `notes` when given. */
  method CreateBudgetBody(amount: real, budgetType: string, month: int, year: int, notes: Option<string>, categoryId: string)
    returns (body: map<string, BodyValue>)
    ensures body.Keys == {"amount", "budgetType", "month", "year", "categoryId"} + (if notes.Some? then {"notes"} else {})
    ensures body["amount"] == DoubleValue(amount) && body["budgetType"] == StringValue(budgetType)
    ensures body["month"] == IntValue(month) && body["year"] == IntValue(year)
    ensures body["categoryId"] == StringValue(categoryId)
    ensures notes.Some? ==> body["notes"] == StringValue(notes.value)
  {
    body := map[];
    body := body["amount" := DoubleValue(amount)];
    body := body["budgetType" := StringValue(budgetType)];
    body := body["month" := IntValue(month)];
    body := body["year" := IntValue(year)];
    if notes.Some? {
      body := body["notes" := StringValue(notes.value)];
    }
    body := body["categoryId" := StringValue(categoryId)];
  }

  function CreateBudget(response: Response<BudgetDto>): (res: Result<Budget, string>)
    ensures res.Success? <==> Accepted(response) && BodyData(response).Some?
    ensures res.Success? ==> res.value == ToBudget(BodyData(response).value)
    ensures Accepted(response) && BodyData(response).None? ==> res == Failure("Data anggaran tidak valid")
    ensures response.Resp? && !Accepted(response) ==> res == Failure(Rejection(response, "Gagal membuat anggaran"))
    ensures response.Exn? ==> res == Failure(ConnectionFailure(response.exnMessage))
  {
    Single(response, ToBudget, "Data anggaran tidak valid", "Gagal membuat anggaran")
  }

  function DeleteBudget(response: Response<()>): (res: Result<string, string>)
    ensures res.Success? <==> Accepted(response)
    ensures res.Success? ==> res.value == BodyMessage(response).GetOr("Anggaran berhasil dihapus")
    ensures response.Resp? && !Accepted(response) ==> res == Failure(Rejection(response, "Gagal menghapus anggaran"))
    ensures response.Exn? ==> res == Failure(ConnectionFailure(response.exnMessage))
  {
    MessageOnly(response, "Anggaran berhasil dihapus", "Gagal menghapus anggaran")
  }
}
