/** presentation/Reminder/ReminderViewModel.kt: the reminders screen's state holder. */
module ReminderViewModel {
  import opened Wrappers
  import opened Domain
  import opened ReminderRepository

  datatype ReminderState = ReminderState(
    isLoading: bool,
    errorMessage: Option<string>,
    successMessage: Option<string>,
    reminders: seq<Reminder>,
    upcomingReminders: seq<Reminder>,
    isReminderCreated: bool)

  const DefaultState: ReminderState := ReminderState(false, None, None, [], [], false)

  /** The reload after a change: every reminder, whatever filter the screen shows. */
  const ReloadQuery: RemindersQuery := RemindersQuery(None)

  /** The state after the two reloads that follow a successful change. */
  function Reloaded(s: ReminderState, reminders: Result<seq<Reminder>, string>, upcoming: Result<seq<Reminder>, string>): (t: ReminderState)
    ensures !t.isLoading && t.successMessage == s.successMessage && t.isReminderCreated == s.isReminderCreated
    ensures t.errorMessage == (if reminders.Success? then None else Some(reminders.error))
    ensures t.reminders == (if reminders.Success? then reminders.value else s.reminders)
    ensures t.upcomingReminders == (if upcoming.Success? then upcoming.value else s.upcomingReminders)
  {
    var afterList :=
      if reminders.Success? then s.(isLoading := false, errorMessage := None, reminders := reminders.value)
      else s.(isLoading := false, errorMessage := Some(reminders.error));
    if upcoming.Success? then afterList.(upcomingReminders := upcoming.value) else afterList
  }

  class ReminderViewModel {
    var state: ReminderState
    /** The list request `init` issues. */
    const initQuery: RemindersQuery

    /** `init`: load all reminders, then the upcoming ones. */
    constructor (reminders: Result<seq<Reminder>, string>, upcoming: Result<seq<Reminder>, string>)
      ensures state == Reloaded(DefaultState, reminders, upcoming)
      ensures initQuery == ReloadQuery
    {
      state := DefaultState;
      initQuery := ReloadQuery;
      new;
      var query := LoadReminders(None, reminders);
      assert query == initQuery;
      LoadUpcomingReminders(upcoming);
    }

    /**
     * loadReminders(isPaid): clears only the error, not the success message; a
     * success replaces the list, a failure keeps it.
     */
    method LoadReminders(isPaid: Option<bool>, outcome: Result<seq<Reminder>, string>)
      returns (query: RemindersQuery)
      modifies this
      ensures query == RemindersQuery(isPaid)
      ensures outcome.Success? ==> state == old(state).(isLoading := false, errorMessage := None, reminders := outcome.value)
      ensures outcome.Failure? ==> state == old(state).(isLoading := false, errorMessage := Some(outcome.error))
    {
      state := state.(isLoading := true, errorMessage := None);
      query := RemindersQuery(isPaid);
      match outcome
      case Success(reminders) =>
        state := state.(reminders := reminders, isLoading := false);
      case Failure(message) =>
        state := state.(errorMessage := Some(message), isLoading := false);
    }

    /** loadUpcomingReminders: a failure is silent. */
    method LoadUpcomingReminders(outcome: Result<seq<Reminder>, string>)
      modifies this
      ensures outcome.Success? ==> state == old(state).(upcomingReminders := outcome.value)
      ensures outcome.Failure? ==> state == old(state)
    {
      if outcome.Success? {
        state := state.(upcomingReminders := outcome.value);
      }
    }

    /** Both reloads after a successful change, with no paid filter. */
    method ReloadAll(reminders: Result<seq<Reminder>, string>, upcoming: Result<seq<Reminder>, string>)
      returns (query: RemindersQuery)
      modifies this
      ensures query == ReloadQuery
      ensures state == Reloaded(old(state), reminders, upcoming)
    {
      query := LoadReminders(ReloadQuery.isPaid, reminders);
      LoadUpcomingReminders(upcoming);
    }

    /** createReminder: a success raises the created flag and its message, then reloads. */
    method CreateReminder(outcome: Result<Reminder, string>, reminders: Result<seq<Reminder>, string>, upcoming: Result<seq<Reminder>, string>)
      returns (reloadQuery: Option<RemindersQuery>)
      modifies this
      ensures !state.isLoading
      ensures outcome.Success? ==> reloadQuery == Some(ReloadQuery)
      ensures outcome.Success? ==>
        state == Reloaded(old(state).(isReminderCreated := true, successMessage := Some("Pengingat berhasil dibuat")), reminders, upcoming)
      ensures outcome.Failure? ==> reloadQuery.None?
      ensures outcome.Failure? ==>
        state == old(state).(isLoading := false, errorMessage := Some(outcome.error), isReminderCreated := false)
    {
      state := state.(isLoading := true, errorMessage := None, isReminderCreated := false);
      match outcome
      case Success(_) =>
        state := state.(isLoading := false, isReminderCreated := true, successMessage := Some("Pengingat berhasil dibuat"));
        var query := ReloadAll(reminders, upcoming);
        reloadQuery := Some(query);
      case Failure(message) =>
        state := state.(errorMessage := Some(message), isLoading := false);
        reloadQuery := None;
    }

    /** markAsPaid: a success shows "Ditandai sebagai lunas", then reloads. */
    method MarkAsPaid(outcome: Result<Reminder, string>, reminders: Result<seq<Reminder>, string>, upcoming: Result<seq<Reminder>, string>)
      returns (reloadQuery: Option<RemindersQuery>)
      modifies this
      ensures !state.isLoading
      ensures outcome.Success? ==> reloadQuery == Some(ReloadQuery)
      ensures outcome.Success? ==>
        state == Reloaded(old(state).(successMessage := Some("Ditandai sebagai lunas")), reminders, upcoming)
      ensures outcome.Failure? ==> reloadQuery.None?
      ensures outcome.Failure? ==>
        state == old(state).(isLoading := false, errorMessage := Some(outcome.error))
    {
      state := state.(isLoading := true);
      match outcome
      case Success(_) =>
        state := state.(successMessage := Some("Ditandai sebagai lunas"), isLoading := false);
        var query := ReloadAll(reminders, upcoming);
        reloadQuery := Some(query);
      case Failure(message) =>
        state := state.(errorMessage := Some(message), isLoading := false);
        reloadQuery := None;
    }

    /** deleteReminder: a success shows "Pengingat berhasil dihapus", then reloads. */
    method DeleteReminder(outcome: Result<string, string>, reminders: Result<seq<Reminder>, string>, upcoming: Result<seq<Reminder>, string>)
      returns (reloadQuery: Option<RemindersQuery>)
      modifies this
      ensures !state.isLoading
      ensures outcome.Success? ==> reloadQuery == Some(ReloadQuery)
      ensures outcome.Success? ==>
        state == Reloaded(old(state).(successMessage := Some("Pengingat berhasil dihapus")), reminders, upcoming)
      ensures outcome.Failure? ==> reloadQuery.None?
      ensures outcome.Failure? ==>
        state == old(state).(isLoading := false, errorMessage := Some(outcome.error))
    {
      state := state.(isLoading := true);
      match outcome
      case Success(_) =>
        state := state.(successMessage := Some("Pengingat berhasil dihapus"), isLoading := false);
        var query := ReloadAll(reminders, upcoming);
        reloadQuery := Some(query);
      case Failure(message) =>
        state := state.(errorMessage := Some(message), isLoading := false);
        reloadQuery := None;
    }

    method ClearMessages()
      modifies this
      ensures state == old(state).(errorMessage := None, successMessage := None)
    {
      state := state.(errorMessage := None, successMessage := None);
    }

    method ResetReminderCreated()
      modifies this
      ensures state == old(state).(isReminderCreated := false)
    {
      state := state.(isReminderCreated := false);
    }
  }
}
