/** presentation/saving/SavingViewModel.kt: the savings screen's state holder. */
module SavingViewModel {
  import opened Wrappers
  import opened Domain

  datatype SavingState = SavingState(
    isLoading: bool,
    errorMessage: Option<string>,
    successMessage: Option<string>,
    savings: seq<Saving>,
    isSavingCreated: bool)

  const DefaultState: SavingState := SavingState(false, None, None, [], false)

  /** The state after loadSavings with the given outcome. */
  function LoadedSavings(s: SavingState, outcome: Result<seq<Saving>, string>): (t: SavingState)
    ensures !t.isLoading && t.successMessage == s.successMessage && t.isSavingCreated == s.isSavingCreated
    ensures t.errorMessage == (if outcome.Success? then None else Some(outcome.error))
    ensures t.savings == (if outcome.Success? then outcome.value else s.savings)
  {
    if outcome.Success? then s.(isLoading := false, errorMessage := None, savings := outcome.value)
    else s.(isLoading := false, errorMessage := Some(outcome.error))
  }

  class SavingViewModel {
    var state: SavingState

    /** `init`: load the savings. */
    constructor (savings: Result<seq<Saving>, string>)
      ensures state == LoadedSavings(DefaultState, savings)
    {
      state := DefaultState;
      new;
      LoadSavings(savings);
    }

    /** loadSavings: a success replaces the list, a failure keeps it. */
    method LoadSavings(outcome: Result<seq<Saving>, string>)
      modifies this
      ensures state == LoadedSavings(old(state), outcome)
    {
      state := state.(isLoading := true, errorMessage := None);
      match outcome
      case Success(savings) =>
        state := state.(savings := savings, isLoading := false);
      case Failure(message) =>
        state := state.(errorMessage := Some(message), isLoading := false);
    }

    /** createSaving: a success raises the created flag and its message, then reloads. */
    method CreateSaving(outcome: Result<Saving, string>, reload: Result<seq<Saving>, string>)
      modifies this
      ensures !state.isLoading
      ensures outcome.Success? ==>
        state == LoadedSavings(old(state).(isSavingCreated := true, successMessage := Some("Tabungan berhasil dibuat")), reload)
      ensures outcome.Failure? ==>
        state == old(state).(isLoading := false, errorMessage := Some(outcome.error), isSavingCreated := false)
    {
      state := state.(isLoading := true, errorMessage := None, isSavingCreated := false);
      match outcome
      case Success(_) =>
        state := state.(isLoading := false, isSavingCreated := true, successMessage := Some("Tabungan berhasil dibuat"));
        LoadSavings(reload);
      case Failure(message) =>
        state := state.(errorMessage := Some(message), isLoading := false);
    }

    /** addToSaving: a success shows "Berhasil menambah tabungan", then reloads. */
    method AddToSaving(outcome: Result<Saving, string>, reload: Result<seq<Saving>, string>)
      modifies this
      ensures !state.isLoading
      ensures outcome.Success? ==>
        state == LoadedSavings(old(state).(successMessage := Some("Berhasil menambah tabungan")), reload)
      ensures outcome.Failure? ==> state == old(state).(isLoading := false, errorMessage := Some(outcome.error))
    {
      state := state.(isLoading := true);
      match outcome
      case Success(_) =>
        state := state.(successMessage := Some("Berhasil menambah tabungan"), isLoading := false);
        LoadSavings(reload);
      case Failure(message) =>
        state := state.(errorMessage := Some(message), isLoading := false);
    }

    /** deleteSaving: a success shows "Tabungan berhasil dihapus", then reloads. */
    method DeleteSaving(outcome: Result<string, string>, reload: Result<seq<Saving>, string>)
      modifies this
      ensures !state.isLoading
      ensures outcome.Success? ==>
        state == LoadedSavings(old(state).(successMessage := Some("Tabungan berhasil dihapus")), reload)
      ensures outcome.Failure? ==> state == old(state).(isLoading := false, errorMessage := Some(outcome.error))
    {
      state := state.(isLoading := true);
      match outcome
      case Success(_) =>
        state := state.(successMessage := Some("Tabungan berhasil dihapus"), isLoading := false);
        LoadSavings(reload);
      case Failure(message) =>
        state := state.(errorMessage := Some(message), isLoading := false);
    }

    method ClearMessages()
      modifies this
      ensures state == old(state).(errorMessage := None, successMessage := None)
    {
      state := state.(errorMessage := None, successMessage := None);
    }

    method ResetSavingCreated()
      modifies this
      ensures state == old(state).(isSavingCreated := false)
    {
      state := state.(isSavingCreated := false);
    }
  }
}
