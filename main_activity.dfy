/**
 The calculator activity: the text of the input and output fields and the three
 flags, updated in place by the button listeners. Each listener's contract
 says what the fields are afterwards and ties the new state to the matching
 transition of `Keypad`, whose lemmas describe sequences of presses.
 */
module Activity {
  import opened Keypad

  class MainActivity {
    /** Text of the input field. */
    var input: string
    /** Text of the output field. */
    var output: string
    /** Whether the last accepted key was a digit. */
    var lastNumeric: bool
    /** Whether the last evaluation failed. */
    var stateError: bool
    /** Whether the current number already holds a dot. */
    var lastDot: bool

    /** The fields as a `Keypad.State` value. */
    function Snapshot(): State
      reads this
    {
      State(input, output, lastNumeric, stateError, lastDot)
    }

    predicate Valid()
      reads this
    {
      Keypad.Valid(Snapshot())
    }

    /** Both fields start empty and every flag starts false. */
    constructor ()
      ensures Valid() && Snapshot() == Initial
    {
      input := "";
      output := "";
      lastNumeric := false;
      stateError := false;
      lastDot := false;
    }

    /** Listener of the ten digit buttons. */
    method OnDigit(d: char)
      requires Valid() && IsDigit(d)
      modifies this
      ensures Valid()
      ensures input == if old(stateError) then [d] else old(input) + [d]
      ensures lastNumeric && !stateError
      ensures lastDot == old(lastDot) && output == old(output)
      ensures Snapshot() == DigitKey(old(Snapshot()), d)
    {
      if stateError {
        input := [d];
        stateError := false;
      } else {
        input := input + [d];
      }
      lastNumeric := true;
    }

    /** Listener of the operator buttons, the factorial button among them. */
    method OnOperator(op: Operator)
      requires Valid()
      modifies this
      ensures Valid()
      ensures old(lastNumeric) && !old(stateError) ==>
                input == old(input) + Label(op) && !lastNumeric && !lastDot
      ensures !(old(lastNumeric) && !old(stateError)) ==>
                input == old(input) && lastNumeric == old(lastNumeric) && lastDot == old(lastDot)
      ensures stateError == old(stateError) && output == old(output)
      ensures Snapshot() == OperatorKey(old(Snapshot()), op)
    {
      if lastNumeric && !stateError {
        input := input + Label(op);
        lastNumeric := false;
        lastDot := false;
      }
    }

    /** Listener of the decimal point button. */
    method OnDot()
      requires Valid()
      modifies this
      ensures Valid()
      ensures old(lastNumeric) && !old(stateError) && !old(lastDot) ==>
                input == old(input) + "." && !lastNumeric && lastDot
      ensures !old(lastNumeric) ==>
                input == old(input) + "0." && !lastNumeric && lastDot == old(lastDot)
      ensures old(lastNumeric) && (old(stateError) || old(lastDot)) ==>
                input == old(input) && lastNumeric && lastDot == old(lastDot)
      ensures stateError == old(stateError) && output == old(output)
      ensures Snapshot() == DotKey(old(Snapshot()))
    {
      if lastNumeric && !stateError && !lastDot {
        input := input + ".";
        lastNumeric := false;
        lastDot := true;
      } else if !lastNumeric {
        input := input + "0.";
      }
    }

    /** Listener of the clear button. */
    method OnClear()
      modifies this
      ensures Valid()
      ensures input == [] && output == []
      ensures !lastNumeric && !stateError && !lastDot
      ensures Snapshot() == ClearKey(old(Snapshot()))
    {
      input := "";
      output := "";
      lastNumeric := false;
      stateError := false;
      lastDot := false;
    }

    /**
     Listener of the equal button. `bangInView` is the result of asking whether
     the input view's description mentions '!'; `eval` is the expression
     evaluator, told whether the factorial operator is registered.
     */
    method OnEqual(bangInView: bool, eval: Evaluator)
      requires Valid()
      modifies this
      ensures Valid()
      ensures input == old(input)
      ensures !EvaluatesPlain(old(Snapshot()), bangInView) && !EvaluatesWithFactorial(old(Snapshot())) ==>
                Snapshot() == old(Snapshot())
      ensures EvaluatesPlain(old(Snapshot()), bangInView) || EvaluatesWithFactorial(old(Snapshot())) ==>
                match eval(old(input), !old(lastNumeric))
                case Value(text) =>
                  output == text && lastDot && lastNumeric == old(lastNumeric) && stateError == old(stateError)
                case ArithmeticError =>
                  output == ErrorText && stateError && !lastNumeric && lastDot == old(lastDot)
      ensures Snapshot() == EqualKey(old(Snapshot()), bangInView, eval)
    {
      if lastNumeric && !stateError && !bangInView {
        var outcome := eval(input, false);
        match outcome {
          case Value(text) =>
            output := text;
            lastDot := true;
          case ArithmeticError =>
            output := ErrorText;
            stateError := true;
            lastNumeric := false;
        }
      } else if !lastNumeric && '!' in input {
        var outcome := eval(input, true);
        match outcome {
          case Value(text) =>
            output := text;
            lastDot := true;
          case ArithmeticError =>
            output := ErrorText;
            stateError := true;
            lastNumeric := false;
        }
      }
    }

    /** Listener of the erase button. */
    method OnErase()
      requires Valid()
      modifies this
      ensures Valid()
      ensures old(input) == [] ==> input == []
      ensures old(input) != [] ==> input + [old(input)[|old(input)| - 1]] == old(input)
      ensures output == old(output)
      ensures lastNumeric == old(lastNumeric) && stateError == old(stateError) && lastDot == old(lastDot)
      ensures Snapshot() == EraseKey(old(Snapshot()))
    {
      if |input| > 0 {
        input := input[..|input| - 1];
      }
    }
  }
}
