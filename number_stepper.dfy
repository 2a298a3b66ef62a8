/** The numeric stepper: minus and plus buttons that move a value by a step
    without leaving [min, max], and a text field whose typed number is
    clamped into that range. */
module NumberStepper {
  import opened Strings

  const DefaultMin := 0
  const DefaultMax := 99
  const DefaultStep := 1

  function Max(a: int, b: int): int { if a >= b then a else b }
  function Min(a: int, b: int): int { if a <= b then a else b }

  /** `Math.max(min, Math.min(max, v))`. */
  function ClampTo(v: int, min: int, max: int): (r: int)
    ensures r >= min
    ensures min <= max ==> r <= max
    ensures min <= v <= max ==> r == v
    ensures min <= max && v > max ==> r == max
    ensures v < min ==> r == min
  {
    Max(min, Min(max, v))
  }

  /** The value the minus button proposes: one step down, not below min. */
  function Decremented(value: int, min: int, step: int): (r: int)
    ensures r >= min
    ensures value - step >= min ==> r == value - step
    ensures value - step < min ==> r == min
  {
    Max(min, value - step)
  }

  /** The value the plus button proposes: one step up, not above max. */
  function Incremented(value: int, max: int, step: int): (r: int)
    ensures r <= max
    ensures value + step <= max ==> r == value + step
    ensures value + step > max ==> r == max
  {
    Min(max, value + step)
  }

  /** `canDecrement`. */
  predicate CanDecrement(value: int, min: int) { value > min }

  /** `canIncrement`. */
  predicate CanIncrement(value: int, max: int) { value < max }

  /** For a value in range and a positive step, a button changes the value
      exactly when it is enabled, and the new value stays in range. */
  lemma ButtonsMatchEnabled(value: int, min: int, max: int, step: int)
    requires min <= value <= max && step > 0
    ensures Decremented(value, min, step) != value <==> CanDecrement(value, min)
    ensures Incremented(value, max, step) != value <==> CanIncrement(value, max)
    ensures min <= Decremented(value, min, step) <= max
    ensures min <= Incremented(value, max, step) <= max
  {
  }

  /** Pressing minus then plus (or plus then minus) away from the bounds
      returns to the value. */
  lemma StepsUndo(value: int, min: int, max: int, step: int)
    requires step > 0 && min <= value - step && value + step <= max
    ensures Incremented(Decremented(value, min, step), max, step) == value
    ensures Decremented(Incremented(value, max, step), min, step) == value
  {
  }

  /** The field's own state: the text shown and whether it has focus. */
  class Stepper {
    var inputValue: string
    var isFocused: bool

    constructor(value: int)
      ensures inputValue == IntToString(value) && !isFocused
    {
      inputValue := IntToString(value);
      isFocused := false;
    }

    /** `decrement`: reports and shows the new value only when it differs. */
    method Decrement(value: int, min: int, step: int) returns (reported: Option<int>)
      modifies this
      ensures reported.Some? <==> Decremented(value, min, step) != value
      ensures reported.Some? ==> reported.value == Decremented(value, min, step) && reported.value >= min
                                 && inputValue == IntToString(reported.value)
      ensures reported.None? ==> inputValue == old(inputValue)
      ensures isFocused == old(isFocused)
    {
      var newValue := Max(min, value - step);
      if newValue != value {
        reported := Some(newValue);
        inputValue := IntToString(newValue);
      } else {
        reported := None;
      }
    }

    /** `increment`: reports and shows the new value only when it differs. */
    method Increment(value: int, max: int, step: int) returns (reported: Option<int>)
      modifies this
      ensures reported.Some? <==> Incremented(value, max, step) != value
      ensures reported.Some? ==> reported.value == Incremented(value, max, step) && reported.value <= max
                                 && inputValue == IntToString(reported.value)
      ensures reported.None? ==> inputValue == old(inputValue)
      ensures isFocused == old(isFocused)
    {
      var newValue := Min(max, value + step);
      if newValue != value {
        reported := Some(newValue);
        inputValue := IntToString(newValue);
      } else {
        reported := None;
      }
    }

    /** `handleInputChange`: the text is shown as typed; a number in it is
        reported clamped into range. */
    method HandleInputChange(text: string, min: int, max: int) returns (reported: Option<int>)
      modifies this
      ensures inputValue == text && isFocused == old(isFocused)
      ensures reported.Some? <==> ParseInt(text).Some?
      ensures reported.Some? ==> reported.value == ClampTo(ParseInt(text).value, min, max)
      ensures reported.Some? && min <= max ==> min <= reported.value <= max
    {
      inputValue := text;
      var parsed := ParseInt(text);
      reported := if parsed.Some? then Some(ClampTo(parsed.value, min, max)) else None;
    }

    /** `handleBlur`: focus goes; text without a number reverts to the
        value, otherwise the clamped number is shown and reported. */
    method HandleBlur(value: int, min: int, max: int) returns (reported: Option<int>)
      modifies this
      ensures !isFocused
      ensures ParseInt(old(inputValue)).None? ==> reported.None? && inputValue == IntToString(value)
      ensures ParseInt(old(inputValue)).Some? ==>
                && reported == Some(ClampTo(ParseInt(old(inputValue)).value, min, max))
                && inputValue == IntToString(reported.value)
      ensures ParseInt(inputValue).Some?
      ensures reported.Some? ==> ParseInt(inputValue) == reported
    {
      isFocused := false;
      var parsed := ParseInt(inputValue);
      if parsed.None? {
        inputValue := IntToString(value);
        reported := None;
        ParseIntToString(value);
      } else {
        var clamped := Max(min, Min(max, parsed.value));
        inputValue := IntToString(clamped);
        reported := Some(clamped);
        ParseIntToString(clamped);
      }
    }

    /** `handleFocus`. */
    method HandleFocus()
      modifies this
      ensures isFocused && inputValue == old(inputValue)
    {
      isFocused := true;
    }
  }
}
