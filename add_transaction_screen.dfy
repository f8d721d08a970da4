/**
 * presentation/transaction/AddTransactionScreen.kt: the new-transaction form. The
 * form's remembered fields are a class; the chosen date is a parameter, because
 * the screen reads it from the clock.
 */
module AddTransactionScreen {
  import opened Wrappers
  import opened Text
  import opened Domain

  /** The categories of one type, in their order: what the dropdown offers. */
  function OfType(categories: seq<Category>, t: TransactionType): (offered: seq<Category>)
    ensures |offered| <= |categories|
    ensures forall i :: 0 <= i < |offered| ==> offered[i].categoryType == t
    ensures forall c :: c in offered <==> c in categories && c.categoryType == t
  {
    if categories == [] then []
    else if categories[0].categoryType == t then [categories[0]] + OfType(categories[1..], t)
    else OfType(categories[1..], t)
  }

  /** The arguments the submit button hands to createTransaction. */
  datatype Submission = Submission(
    categoryId: string,
    transactionType: string,
    nominal: nat,
    description: Option<string>,
    date: string)

  /** The three buttons of the date dialog. */
  datatype DateChoice = Today | Yesterday | TwoDaysAgo

  /** How many days before today each button picks. */
  function DaysBack(choice: DateChoice): (n: nat)
    ensures n <= 2
    ensures choice == Today <==> n == 0
    ensures choice == Yesterday <==> n == 1
    ensures choice == TwoDaysAgo <==> n == 2
  {
    match choice
    case Today => 0
    case Yesterday => 1
    case TwoDaysAgo => 2
  }

  class AddTransactionForm {
    var nominal: string
    var description: string
    var selectedType: TransactionType
    var selectedCategory: Option<Category>
    var selectedDate: string

    /** The nominal holds digits only, and a chosen category is of the chosen type. */
    predicate Valid()
      reads this
    {
      AllDigits(nominal) && (selectedCategory.Some? ==> selectedCategory.value.categoryType == selectedType)
    }

    /** An empty form: expense, no category, today's date. */
    constructor (today: string)
      ensures Valid()
      ensures nominal == [] && description == [] && selectedType == EXPENSE
      ensures selectedCategory.None? && selectedDate == today
    {
      nominal := [];
      description := [];
      selectedType := EXPENSE;
      selectedCategory := None;
      selectedDate := today;
    }

    /** The type buttons: changing the type drops the chosen category. */
    method SelectType(t: TransactionType)
      requires Valid()
      modifies this
      ensures Valid() && selectedType == t && selectedCategory.None?
      ensures nominal == old(nominal) && description == old(description) && selectedDate == old(selectedDate)
    {
      selectedType := t;
      selectedCategory := None;
    }

    /** The nominal field keeps only the digits of what was typed. */
    method EnterNominal(input: string)
      requires Valid()
      modifies this
      ensures Valid() && nominal == FilterDigits(input)
      ensures description == old(description) && selectedType == old(selectedType)
      ensures selectedCategory == old(selectedCategory) && selectedDate == old(selectedDate)
    {
      nominal := FilterDigits(input);
    }

    method EnterDescription(input: string)
      requires Valid()
      modifies this
      ensures Valid() && description == input
      ensures nominal == old(nominal) && selectedType == old(selectedType)
      ensures selectedCategory == old(selectedCategory) && selectedDate == old(selectedDate)
    {
      description := input;
    }

    /**
     * A button of the date dialog: the date `DaysBack(choice)` days before today,
     * where `daysAgo(n)` is the clock's `LocalDate.now().minusDays(n)` as text.
     */
    method ChooseDate(choice: DateChoice, daysAgo: nat -> string)
      requires Valid()
      modifies this
      ensures Valid() && selectedDate == daysAgo(DaysBack(choice))
      ensures nominal == old(nominal) && description == old(description)
      ensures selectedType == old(selectedType) && selectedCategory == old(selectedCategory)
    {
      selectedDate := daysAgo(DaysBack(choice));
    }

    /** Choosing the `index`-th entry the dropdown offers for the chosen type. */
    method ChooseCategory(categories: seq<Category>, index: nat)
      requires Valid() && index < |OfType(categories, selectedType)|
      modifies this
      ensures selectedType == old(selectedType)
      ensures Valid() && selectedCategory == Some(OfType(categories, selectedType)[index])
      ensures selectedCategory.value in categories
      ensures nominal == old(nominal) && description == old(description) && selectedDate == old(selectedDate)
    {
      selectedCategory := Some(OfType(categories, selectedType)[index]);
    }

    /** The submit button is enabled while idle, with a category and a nominal. */
    function SubmitEnabled(isLoading: bool): (enabled: bool)
      reads this
      ensures enabled <==> !isLoading && selectedCategory.Some? && !IsBlank(nominal)
    {
      !isLoading && selectedCategory.Some? && !IsBlank(nominal)
    }

    /**
     * What a tap on submit sends, if anything: the sent type always agrees with
     * the category's, a nominal of ASCII digits always parses (so for such a
     * field the `?: 0.0` fallback is never taken) and a blank description is
     * sent as null.
     */
    function Submit(): (s: Option<Submission>)
      requires Valid()
      reads this
      ensures s.Some? <==> selectedCategory.Some? && nominal != []
      ensures s.Some? ==> s.value.categoryId == selectedCategory.value.id
      ensures s.Some? ==> s.value.transactionType == TransactionTypeName(selectedType)
      ensures s.Some? ==> s.value.transactionType == TransactionTypeName(selectedCategory.value.categoryType)
      ensures s.Some? ==> s.value.nominal == DigitsValue(nominal) && s.value.date == selectedDate
      ensures s.Some? ==> (s.value.description.None? <==> IsBlank(description))
      ensures s.Some? && !IsBlank(description) ==> s.value.description == Some(description)
    {
      DigitsBlankIffEmpty(nominal);
      if selectedCategory.Some? && !IsBlank(nominal) then
        Some(Submission(
          selectedCategory.value.id,
          if selectedType == INCOME then "INCOME" else "EXPENSE",
          ParseDigits(nominal).GetOr(0),
          if IsBlank(description) then None else Some(description),
          selectedDate))
      else
        None
    }
  }
}
