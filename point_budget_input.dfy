/** The point-budget field of the quick army builder: preset buttons and a
    custom field whose text is checked, with the first failed check's
    message shown, before the budget is reported. */
module PointBudgetInput {
  import opened Strings

  const MaxBudget := 10000
  const EmptyError := "Введите количество очков"
  const NotANumberError := "Введите число"
  const NotPositiveError := "Введите положительное число"
  const TooLargeError := "Максимум 10000 очков"

  datatype BudgetCheck = Accepted(value: int) | Rejected(error: string)

  /** `validateInput`: the checks in order — text present, a number, above
      zero, at most 10000. */
  function ValidateInput(input: string): (r: BudgetCheck)
    ensures r.Accepted? <==> input != "" && ParseDecimal(input).Some?
                             && 1 <= ParseDecimal(input).value <= MaxBudget
    ensures r.Accepted? ==> r.value == ParseDecimal(input).value
    ensures input == "" ==> r == Rejected(EmptyError)
    ensures input != "" && ParseDecimal(input).None? ==> r == Rejected(NotANumberError)
    ensures input != "" && ParseDecimal(input).Some? && ParseDecimal(input).value <= 0 ==>
              r == Rejected(NotPositiveError)
    ensures input != "" && ParseDecimal(input).Some? && ParseDecimal(input).value > MaxBudget ==>
              r == Rejected(TooLargeError)
  {
    if input == "" then Rejected(EmptyError)
    else
      match ParseDecimal(input)
      case None => Rejected(NotANumberError)
      case Some(num) =>
        if num <= 0 then Rejected(NotPositiveError)
        else if num > MaxBudget then Rejected(TooLargeError)
        else Accepted(num)
  }

  /** The message shown after a check: none when the text is accepted. */
  function ErrorAfter(r: BudgetCheck): string
  {
    if r.Rejected? then r.error else ""
  }

  /** Every budget from 1 to 10000, typed as digits, is accepted as itself;
      every other integer typed that way is refused. */
  lemma TypedBudgetAccepted(n: int)
    ensures ValidateInput(IntToString(n)) == (if 1 <= n <= MaxBudget then Accepted(n)
                                             else if n <= 0 then Rejected(NotPositiveError)
                                             else Rejected(TooLargeError))
  {
    ParseIntToString(n);
  }

  /** The field's state: the custom text and the error under it. */
  class BudgetField {
    var customValue: string
    var error: string

    constructor()
      ensures customValue == "" && error == ""
    {
      customValue := "";
      error := "";
    }

    /** `handlePresetClick`: the custom text and the error go, and the
        preset is reported. */
    method HandlePresetClick(preset: int) returns (reported: int)
      modifies this
      ensures customValue == "" && error == "" && reported == preset
      ensures forall p :: IsPresetSelected(Some(reported), p) <==> p == preset
    {
      customValue := "";
      error := "";
      reported := preset;
    }

    /** `handleCustomChange`: the text is kept and checked; only an accepted
        budget is reported. */
    method HandleCustomChange(text: string) returns (reported: Option<int>)
      modifies this
      ensures customValue == text
      ensures error == ErrorAfter(ValidateInput(text))
      ensures reported.Some? <==> ValidateInput(text).Accepted?
      ensures reported.Some? ==> reported.value == ValidateInput(text).value && 1 <= reported.value <= MaxBudget
    {
      customValue := text;
      var r := ValidateInput(text);
      error := ErrorAfter(r);
      reported := if r.Accepted? then Some(r.value) else None;
    }

    /** `handleCustomBlur`: the same check on the text already entered. */
    method HandleCustomBlur() returns (reported: Option<int>)
      modifies this
      ensures customValue == old(customValue)
      ensures error == ErrorAfter(ValidateInput(customValue))
      ensures reported.Some? <==> ValidateInput(customValue).Accepted?
      ensures reported.Some? ==> reported.value == ValidateInput(customValue).value && 1 <= reported.value <= MaxBudget
    {
      var r := ValidateInput(customValue);
      error := ErrorAfter(r);
      reported := if r.Accepted? then Some(r.value) else None;
    }

    /** `handleKeyDown`: Escape clears the text and the error; other keys
        change nothing. */
    method HandleKeyDown(key: string)
      modifies this
      ensures key == "Escape" ==> customValue == "" && error == ""
      ensures key != "Escape" ==> customValue == old(customValue) && error == old(error)
    {
      if key == "Escape" {
        customValue := "";
        error := "";
      }
    }

    /** `isPresetSelected`: the preset equals the current budget and no
        custom text is entered. */
    predicate IsPresetSelected(value: Option<int>, preset: int)
      reads this
    {
      value == Some(preset) && customValue == ""
    }
  }
}
