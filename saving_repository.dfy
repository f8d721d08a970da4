/** data/repository/SavingRepository.kt: list, create, top up and delete savings goals. */
module SavingRepository {
  import opened Wrappers
  import opened Domain
  import opened Dto
  import opened Envelope

  /** The three plan names decode to themselves; any other string is MONTHLY. */
  function DecodeFillingPlan(s: string): (p: FillingPlan)
    ensures p == FillingPlan.DAILY <==> s == "DAILY"
    ensures p == FillingPlan.WEEKLY <==> s == "WEEKLY"
    ensures p == FillingPlan.MONTHLY <==> s != "DAILY" && s != "WEEKLY"
  {
    if s == "DAILY" then FillingPlan.DAILY
    else if s == "WEEKLY" then FillingPlan.WEEKLY
    else if s == "MONTHLY" then FillingPlan.MONTHLY
    else FillingPlan.MONTHLY
  }

  /** Decoding the name of a plan gives that plan back. */
  lemma FillingPlanRoundTrip(p: FillingPlan)
    ensures DecodeFillingPlan(FillingPlanName(p)) == p
  {
  }

  /** The saving mapping: amounts and progress copied as sent, never recomputed. */
  function ToSaving(dto: SavingDto): (s: Saving)
    ensures s.id == dto.id && s.name == dto.name
    ensures s.targetAmount == dto.targetAmount && s.currentAmount == dto.currentAmount && s.progress == dto.progress
    ensures s.fillingPlan == DecodeFillingPlan(dto.fillingPlan)
    ensures s.userId == dto.userId && s.createdAt == dto.createdAt && s.updatedAt == dto.updatedAt
  {
    Saving(dto.id, dto.name, dto.targetAmount, dto.currentAmount, DecodeFillingPlan(dto.fillingPlan),
           dto.progress, dto.userId, dto.createdAt, dto.updatedAt)
  }

  function GetSavings(response: Response<seq<SavingDto>>): (res: Result<seq<Saving>, string>)
    ensures res.Success? <==> Accepted(response)
    ensures Accepted(response) && BodyData(response).None? ==> res == Success([])
    ensures Accepted(response) && BodyData(response).Some? ==> InOrder(ToSaving, BodyData(response).value, res.value)
    ensures response.Resp? && !Accepted(response) ==> res == Failure(Rejection(response, "Gagal mengambil tabungan"))
    ensures response.Exn? ==> res == Failure(ConnectionFailure(response.exnMessage))
  {
    Many(response, (l: seq<SavingDto>) => l, ToSaving, "Gagal mengambil tabungan")
  }

  /** The `buildMap` body of createSaving: exactly these four keys. */
  method CreateSavingBody(name: string, targetAmount: real, currentAmount: real, fillingPlan: string)
    returns (body: map<string, BodyValue>)
    ensures body.Keys == {"name", "targetAmount", "currentAmount", "fillingPlan"}
    ensures body["name"] == StringValue(name) && body["fillingPlan"] == StringValue(fillingPlan)
    ensures body["targetAmount"] == DoubleValue(targetAmount) && body["currentAmount"] == DoubleValue(currentAmount)
  {
    body := map[];
    body := body["name" := StringValue(name)];
    body := body["targetAmount" := DoubleValue(targetAmount)];
    body := body["currentAmount" := DoubleValue(currentAmount)];
    body := body["fillingPlan" := StringValue(fillingPlan)];
  }

  function CreateSaving(response: Response<SavingDto>): (res: Result<Saving, string>)
    ensures res.Success? <==> Accepted(response) && BodyData(response).Some?
    ensures res.Success? ==> res.value == ToSaving(BodyData(response).value)
    ensures Accepted(response) && BodyData(response).None? ==> res == Failure("Data tabungan tidak valid")
    ensures response.Resp? && !Accepted(response) ==> res == Failure(Rejection(response, "Gagal membuat tabungan"))
    ensures response.Exn? ==> res == Failure(ConnectionFailure(response.exnMessage))
  {
    Single(response, ToSaving, "Data tabungan tidak valid", "Gagal membuat tabungan")
  }

  /** `mapOf("amount" to amount)`: the top-up body has one key. */
  function AddToSavingBody(amount: real): (body: map<string, BodyValue>)
    ensures body.Keys == {"amount"} && body["amount"] == DoubleValue(amount)
  {
    map["amount" := DoubleValue(amount)]
  }

  function AddToSaving(response: Response<SavingDto>): (res: Result<Saving, string>)
    ensures res.Success? <==> Accepted(response) && BodyData(response).Some?
    ensures res.Success? ==> res.value == ToSaving(BodyData(response).value)
    ensures Accepted(response) && BodyData(response).None? ==> res == Failure("Data tabungan tidak valid")
    ensures response.Resp? && !Accepted(response) ==> res == Failure(Rejection(response, "Gagal menambah tabungan"))
    ensures response.Exn? ==> res == Failure(ConnectionFailure(response.exnMessage))
  {
    Single(response, ToSaving, "Data tabungan tidak valid", "Gagal menambah tabungan")
  }

  function DeleteSaving(response: Response<()>): (res: Result<string, string>)
    ensures res.Success? <==> Accepted(response)
    ensures res.Success? ==> res.value == BodyMessage(response).GetOr("Tabungan berhasil dihapus")
    ensures response.Resp? && !Accepted(response) ==> res == Failure(Rejection(response, "Gagal menghapus tabungan"))
    ensures response.Exn? ==> res == Failure(ConnectionFailure(response.exnMessage))
  {
    MessageOnly(response, "Tabungan berhasil dihapus", "Gagal menghapus tabungan")
  }
}
