/**
 * presentation/Reminder/ReminderScreen.kt: the paid filter chips, the mark-paid
 * button and the full-screen spinner. Dates use the home screen's `FormatDate`,
 * which this screen repeats word for word.
 */
module ReminderScreen {
  import opened Wrappers
  import opened Domain
  import opened ReminderRepository
  import opened ReminderViewModel

  datatype PaidChip = AllChip | UnpaidChip | PaidOnlyChip

  /** "Semua" shows every reminder, "Belum Lunas" the unpaid ones, "Lunas" the paid ones. */
  function ChipValue(c: PaidChip): (v: Option<bool>)
    ensures v.None? <==> c == AllChip
    ensures v == Some(false) <==> c == UnpaidChip
    ensures v == Some(true) <==> c == PaidOnlyChip
  {
    match c
    case AllChip => None
    case UnpaidChip => Some(false)
    case PaidOnlyChip => Some(true)
  }

  predicate Selected(c: PaidChip, filterPaid: Option<bool>) {
    filterPaid == ChipValue(c)
  }

  /** Every filter value selects exactly one chip. */
  lemma ExactlyOneSelected(filterPaid: Option<bool>)
    ensures exists c :: Selected(c, filterPaid)
    ensures forall c, d :: Selected(c, filterPaid) && Selected(d, filterPaid) ==> c == d
  {
    match filterPaid
    case None => assert Selected(AllChip, filterPaid);
    case Some(b) => assert Selected(if b then PaidOnlyChip else UnpaidChip, filterPaid);
  }

  /** The screen's remembered filter; it lives in the screen, not in the ViewModel. */
  class PaidFilter {
    var filterPaid: Option<bool>

    constructor ()
      ensures filterPaid.None?
    {
      filterPaid := None;
    }

    /** A tap remembers the chip's value and loads the reminders with it. */
    method Tap(viewModel: ReminderViewModel, c: PaidChip, outcome: Result<seq<Reminder>, string>)
      returns (query: RemindersQuery)
      modifies this, viewModel
      ensures filterPaid == ChipValue(c) && Selected(c, filterPaid)
      ensures query == RemindersQuery(filterPaid)
      ensures outcome.Success? ==>
        viewModel.state == old(viewModel.state).(isLoading := false, errorMessage := None, reminders := outcome.value)
      ensures outcome.Failure? ==>
        viewModel.state == old(viewModel.state).(isLoading := false, errorMessage := Some(outcome.error))
    {
      filterPaid := ChipValue(c);
      query := viewModel.LoadReminders(filterPaid, outcome);
    }
  }

  /** The check button is shown only on an unpaid reminder. */
  function MarkPaidVisible(r: Reminder): (visible: bool)
    ensures visible <==> !r.isPaid
  {
    !r.isPaid
  }

  /** The centred spinner replaces the list only while nothing is loaded yet. */
  function ShowFullSpinner(s: ReminderState): (spinner: bool)
    ensures spinner <==> s.isLoading && s.reminders == []
    ensures s.reminders != [] ==> !spinner
  {
    s.isLoading && |s.reminders| == 0
  }
}
