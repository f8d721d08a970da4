/**
 * presentation/saving/SavingScreen.kt: which saving each dialog acts on, and the
 * add-money dialog's amount field.
 */
module SavingScreen {
  import opened Wrappers
  import opened Text
  import opened Domain

  /** The two dialogs and the saving each was opened for. */
  class SavingDialogs {
    var showDeleteDialog: bool
    var savingToDelete: Option<Saving>
    var showAddMoneyDialog: bool
    var savingToAddMoney: Option<Saving>

    constructor ()
      ensures !showDeleteDialog && savingToDelete.None? && !showAddMoneyDialog && savingToAddMoney.None?
    {
      showDeleteDialog := false;
      savingToDelete := None;
      showAddMoneyDialog := false;
      savingToAddMoney := None;
    }

    /** A card's delete icon opens the delete dialog for that card's saving. */
    method OpenDelete(saving: Saving)
      modifies this
      ensures showDeleteDialog && savingToDelete == Some(saving)
      ensures showAddMoneyDialog == old(showAddMoneyDialog) && savingToAddMoney == old(savingToAddMoney)
    {
      savingToDelete := Some(saving);
      showDeleteDialog := true;
    }

    /** Confirming deletes the saving the dialog was opened for, then closes it. */
    method ConfirmDelete() returns (targetId: string)
      requires showDeleteDialog && savingToDelete.Some?
      modifies this
      ensures targetId == old(savingToDelete).value.id
      ensures !showDeleteDialog && savingToDelete.None?
      ensures showAddMoneyDialog == old(showAddMoneyDialog) && savingToAddMoney == old(savingToAddMoney)
    {
      targetId := savingToDelete.value.id;
      showDeleteDialog := false;
      savingToDelete := None;
    }

    /** A card's add icon opens the add-money dialog for that card's saving. */
    method OpenAddMoney(saving: Saving)
      modifies this
      ensures showAddMoneyDialog && savingToAddMoney == Some(saving)
      ensures showDeleteDialog == old(showDeleteDialog) && savingToDelete == old(savingToDelete)
    {
      savingToAddMoney := Some(saving);
      showAddMoneyDialog := true;
    }

    /**
     * Confirming adds the amount to the saving the dialog was opened for, then closes
     * it; the dialog hands on only a positive amount (`AddMoneyDialog.Confirm`).
     */
    method ConfirmAddMoney(amount: nat) returns (targetId: string, added: nat)
      requires showAddMoneyDialog && savingToAddMoney.Some?
      requires amount > 0
      modifies this
      ensures targetId == old(savingToAddMoney).value.id && added == amount && added > 0
      ensures !showAddMoneyDialog && savingToAddMoney.None?
      ensures showDeleteDialog == old(showDeleteDialog) && savingToDelete == old(savingToDelete)
    {
      targetId := savingToAddMoney.value.id;
      added := amount;
      showAddMoneyDialog := false;
      savingToAddMoney := None;
    }
  }

  /** The add-money dialog's text field. */
  class AddMoneyDialog {
    var amount: string

    predicate Valid()
      reads this
    {
      AllDigits(amount)
    }

    constructor ()
      ensures Valid() && amount == []
    {
      amount := [];
    }

    /** The amount field keeps only the digits of what was typed. */
    method EnterAmount(input: string)
      modifies this
      ensures Valid() && amount == FilterDigits(input)
    {
      amount := FilterDigits(input);
    }

    /** "Tambah" is enabled when the amount is non-blank and parses: for ASCII digits, when it is non-empty. */
    function ConfirmEnabled(): (enabled: bool)
      requires Valid()
      reads this
      ensures enabled <==> amount != []
    {
      DigitsBlankIffEmpty(amount);
      !IsBlank(amount) && ParseDigits(amount).Some?
    }

    /**
     * The value "Tambah" hands on, if any: only a positive one, so a field of
     * zeros does nothing even though the button is enabled.
     */
    function Confirm(): (value: Option<nat>)
      requires Valid()
      reads this
      ensures value.Some? ==> value.value > 0 && value.value == DigitsValue(amount)
      ensures value.None? <==> forall i :: 0 <= i < |amount| ==> amount[i] == '0'
    {
      DigitsValueZero(amount);
      match ParseDigits(amount)
      case Some(v) => if v > 0 then Some(v) else None
      case None => None
    }
  }
}
