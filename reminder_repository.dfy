/** data/repository/ReminderRepository.kt: list, create, mark paid and delete reminders. */
module ReminderRepository {
  import opened Wrappers
  import opened Domain
  import opened Dto
  import opened Envelope

  /** The query of the reminders endpoint: an optional paid/unpaid filter. */
  datatype RemindersQuery = RemindersQuery(isPaid: Option<bool>)

  /** The four recurrence names decode to themselves; any other string is NONE. */
  function DecodeRecurrence(s: string): (r: Recurrence)
    ensures r == Recurrence.DAILY <==> s == "DAILY"
    ensures r == Recurrence.WEEKLY <==> s == "WEEKLY"
    ensures r == Recurrence.MONTHLY <==> s == "MONTHLY"
    ensures r == Recurrence.NONE <==> s != "DAILY" && s != "WEEKLY" && s != "MONTHLY"
  {
    if s == "NONE" then Recurrence.NONE
    else if s == "DAILY" then Recurrence.DAILY
    else if s == "WEEKLY" then Recurrence.WEEKLY
    else if s == "MONTHLY" then Recurrence.MONTHLY
    else Recurrence.NONE
  }

  /** Decoding the name of a recurrence gives that recurrence back. */
  lemma RecurrenceRoundTrip(r: Recurrence)
    ensures DecodeRecurrence(RecurrenceName(r)) == r
  {
  }

  /** The reminder mapping: every field copied, the recurrence decoded. */
  function ToReminder(dto: ReminderDto): (r: Reminder)
    ensures r.id == dto.id && r.name == dto.name && r.dueDate == dto.dueDate && r.amount == dto.amount
    ensures r.recurrence == DecodeRecurrence(dto.recurrence)
    ensures r.notes == dto.notes && r.isPaid == dto.isPaid && r.userId == dto.userId
    ensures r.createdAt == dto.createdAt && r.updatedAt == dto.updatedAt
  {
    Reminder(dto.id, dto.name, dto.dueDate, dto.amount, DecodeRecurrence(dto.recurrence),
             dto.notes, dto.isPaid, dto.userId, dto.createdAt, dto.updatedAt)
  }

  /** getReminders (the `isPaid` filter only shapes the request). */
  function GetReminders(response: Response<seq<ReminderDto>>): (res: Result<seq<Reminder>, string>)
    ensures res.Success? <==> Accepted(response)
    ensures Accepted(response) && BodyData(response).None? ==> res == Success([])
    ensures Accepted(response) && BodyData(response).Some? ==> InOrder(ToReminder, BodyData(response).value, res.value)
    ensures response.Resp? && !Accepted(response) ==> res == Failure(Rejection(response, "Gagal mengambil pengingat"))
    ensures response.Exn? ==> res == Failure(ConnectionFailure(response.exnMessage))
  {
    Many(response, (l: seq<ReminderDto>) => l, ToReminder, "Gagal mengambil pengingat")
  }

  /** getUpcomingReminders: the same decision and fallback as getReminders. */
  function GetUpcomingReminders(response: Response<seq<ReminderDto>>): (res: Result<seq<Reminder>, string>)
    ensures res.Success? <==> Accepted(response)
    ensures Accepted(response) && BodyData(response).None? ==> res == Success([])
    ensures Accepted(response) && BodyData(response).Some? ==> InOrder(ToReminder, BodyData(response).value, res.value)
    ensures response.Resp? && !Accepted(response) ==> res == Failure(Rejection(response, "Gagal mengambil pengingat"))
    ensures response.Exn? ==> res == Failure(ConnectionFailure(response.exnMessage))
  {
    Many(response, (l: seq<ReminderDto>) => l, ToReminder, "Gagal mengambil pengingat")
  }

  /** The `buildMap` body of createReminder: four fixed keys, then `notes` when given. */
  method CreateReminderBody(name: string, dueDate: string, amount: real, recurrence: string, notes: Option<string>)
    returns (body: map<string, BodyValue>)
    ensures body.Keys == {"name", "dueDate", "amount", "recurrence"} + (if notes.Some? then {"notes"} else {})
    ensures body["name"] == StringValue(name) && body["dueDate"] == StringValue(dueDate)
    ensures body["amount"] == DoubleValue(amount) && body["recurrence"] == StringValue(recurrence)
    ensures notes.Some? ==> body["notes"] == StringValue(notes.value)
  {
    body := map[];
    body := body["name" := StringValue(name)];
    body := body["dueDate" := StringValue(dueDate)];
    body := body["amount" := DoubleValue(amount)];
    body := body["recurrence" := StringValue(recurrence)];
    if notes.Some? {
      body := body["notes" := StringValue(notes.value)];
    }
  }

  function CreateReminder(response: Response<ReminderDto>): (res: Result<Reminder, string>)
    ensures res.Success? <==> Accepted(response) && BodyData(response).Some?
    ensures res.Success? ==> res.value == ToReminder(BodyData(response).value)
    ensures Accepted(response) && BodyData(response).None? ==> res == Failure("Data pengingat tidak valid")
    ensures response.Resp? && !Accepted(response) ==> res == Failure(Rejection(response, "Gagal membuat pengingat"))
    ensures response.Exn? ==> res == Failure(ConnectionFailure(response.exnMessage))
  {
    Single(response, ToReminder, "Data pengingat tidak valid", "Gagal membuat pengingat")
  }

  function MarkReminderAsPaid(response: Response<ReminderDto>): (res: Result<Reminder, string>)
    ensures res.Success? <==> Accepted(response) && BodyData(response).Some?
    ensures res.Success? ==> res.value == ToReminder(BodyData(response).value)
    ensures Accepted(response) && BodyData(response).None? ==> res == Failure("Data pengingat tidak valid")
    ensures response.Resp? && !Accepted(response) ==> res == Failure(Rejection(response, "Gagal menandai sebagai lunas"))
    ensures response.Exn? ==> res == Failure(ConnectionFailure(response.exnMessage))
  {
    Single(response, ToReminder, "Data pengingat tidak valid", "Gagal menandai sebagai lunas")
  }

  function DeleteReminder(response: Response<()>): (res: Result<string, string>)
    ensures res.Success? <==> Accepted(response)
    ensures res.Success? ==> res.value == BodyMessage(response).GetOr("Pengingat berhasil dihapus")
    ensures response.Resp? && !Accepted(response) ==> res == Failure(Rejection(response, "Gagal menghapus pengingat"))
    ensures response.Exn? ==> res == Failure(ConnectionFailure(response.exnMessage))
  {
    MessageOnly(response, "Pengingat berhasil dihapus", "Gagal menghapus pengingat")
  }
}
