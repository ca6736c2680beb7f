/**
 The calculator's input state machine as values. A `State` holds the text of
 the input field, the text of the output field and the three flags the
 activity keeps (`lastNumeric`, `stateError`, `lastDot`); one function per
 button listener gives the state after that button is pressed. The expression
 evaluator is a parameter: it receives the input text and whether the
 factorial operator is registered, and yields a displayable value or an
 arithmetic error.
 */
module Keypad {

  /** The operator buttons, in the order the activity lists them. */
  datatype Operator = Add | Subtract | Multiply | Divide | Sin | Cos | Tan | Factorial | Power | Modulo

  /** The text an operator button appends: the evaluator's symbol for it. */
  function Label(op: Operator): (s: string)
    ensures s != []
    ensures '!' in s <==> op == Factorial
  {
    match op
    case Add => "+"
    case Subtract => "-"
    case Multiply => "*"
    case Divide => "/"
    case Sin => "sin"
    case Cos => "cos"
    case Tan => "tan"
    case Factorial => "!"
    case Power => "^"
    case Modulo => "%"
  }

  predicate IsDigit(c: char) {
    '0' <= c <= '9'
  }

  /** What evaluating the input yields: the formatted result, or an arithmetic error. */
  datatype Outcome = Value(text: string) | ArithmeticError

  /** The evaluator: input text and whether the factorial operator is registered. */
  type Evaluator = (string, bool) -> Outcome

  /** The marker shown in the output field when evaluation fails. */
  const ErrorText: string := "Error"

  datatype State = State(input: string, output: string, lastNumeric: bool, stateError: bool, lastDot: bool)

  /** Both fields empty and every flag false: the state at start-up and after Clear. */
  const Initial: State := State("", "", false, false, false)

  /** The invariant every listener keeps: in the error state the last key is never numeric. */
  predicate Valid(s: State) {
    s.stateError ==> !s.lastNumeric
  }

  /** A digit key: replaces the input after an error, appends to it otherwise. */
  function DigitKey(s: State, d: char): (r: State)
    ensures Valid(r)
    ensures r.lastNumeric && !r.stateError
    ensures r.lastDot == s.lastDot && r.output == s.output
    ensures |r.input| >= 1 && r.input[|r.input| - 1] == d
    ensures r.input[..|r.input| - 1] == if s.stateError then [] else s.input
  {
    if s.stateError then s.(input := [d], stateError := false, lastNumeric := true)
    else s.(input := s.input + [d], lastNumeric := true)
  }

  /** An operator key: accepted only right after a numeric key and outside the error state. */
  function OperatorKey(s: State, op: Operator): (r: State)
    ensures Valid(s) ==> Valid(r)
    ensures r != s <==> s.lastNumeric && !s.stateError
    ensures r != s ==> r.input == s.input + Label(op) && !r.lastNumeric && !r.lastDot
    ensures r.output == s.output && r.stateError == s.stateError
  {
    if s.lastNumeric && !s.stateError then
      s.(input := s.input + Label(op), lastNumeric := false, lastDot := false)
    else s
  }

  /**
   The dot key. After a digit with no dot yet in the number it appends "."; when
   the last key was not numeric it appends "0." (this also happens in the error
   state and right after a dot); otherwise it does nothing.
   */
  function DotKey(s: State): (r: State)
    ensures Valid(s) ==> Valid(r)
    ensures r.output == s.output && r.stateError == s.stateError
    ensures s.lastNumeric && !s.stateError && !s.lastDot ==>
              r.input == s.input + "." && r.lastDot && !r.lastNumeric
    ensures !s.lastNumeric ==> r == s.(input := s.input + "0.")
    ensures s.lastNumeric && (s.stateError || s.lastDot) ==> r == s
  {
    if s.lastNumeric && !s.stateError && !s.lastDot then
      s.(input := s.input + ".", lastNumeric := false, lastDot := true)
    else if !s.lastNumeric then
      s.(input := s.input + "0.")
    else s
  }

  /** The clear key: both fields emptied and every flag reset, whatever the state. */
  function ClearKey(s: State): (r: State)
    ensures Valid(r)
    ensures r.input == [] && r.output == []
    ensures !r.lastNumeric && !r.stateError && !r.lastDot
  {
    Initial
  }

  /** The erase key: drops the last character of a non-empty input; flags are not touched. */
  function EraseKey(s: State): (r: State)
    ensures Valid(s) ==> Valid(r)
    ensures s.input == [] ==> r == s
    ensures s.input != [] ==> |r.input| == |s.input| - 1 && s.input == r.input + [s.input[|s.input| - 1]]
    ensures r.output == s.output
    ensures r.lastNumeric == s.lastNumeric && r.stateError == s.stateError && r.lastDot == s.lastDot
  {
    if |s.input| > 0 then s.(input := s.input[..|s.input| - 1]) else s
  }

  /**
   The plain evaluation path: the last key was numeric, no error, and the
   description of the input view (an opaque `bangInView`) mentions no '!'.
   */
  predicate EvaluatesPlain(s: State, bangInView: bool) {
    s.lastNumeric && !s.stateError && !bangInView
  }

  /** The factorial evaluation path: the last key was not numeric and the input contains '!'. */
  predicate EvaluatesWithFactorial(s: State) {
    !s.lastNumeric && '!' in s.input
  }

  /** Shows an evaluation outcome: the value with the dot flag set, or the error marker and the error state. */
  function Settle(s: State, o: Outcome): (r: State)
    ensures r.input == s.input
    ensures o.Value? ==> r.output == o.text && r.lastDot && r.lastNumeric == s.lastNumeric && r.stateError == s.stateError
    ensures o.ArithmeticError? ==> r.output == ErrorText && r.stateError && !r.lastNumeric && r.lastDot == s.lastDot
  {
    match o
    case Value(text) => s.(output := text, lastDot := true)
    case ArithmeticError => s.(output := ErrorText, stateError := true, lastNumeric := false)
  }

  /** The equal key: at most one of the two evaluation paths runs; the input is never changed. */
  function EqualKey(s: State, bangInView: bool, eval: Evaluator): (r: State)
    ensures Valid(s) ==> Valid(r)
    ensures r.input == s.input
    ensures !(EvaluatesPlain(s, bangInView) && EvaluatesWithFactorial(s))
    ensures !EvaluatesPlain(s, bangInView) && !EvaluatesWithFactorial(s) ==> r == s
    ensures EvaluatesPlain(s, bangInView) || EvaluatesWithFactorial(s) ==>
              r == Settle(s, eval(s.input, EvaluatesWithFactorial(s)))
  {
    if EvaluatesPlain(s, bangInView) then Settle(s, eval(s.input, false))
    else if EvaluatesWithFactorial(s) then Settle(s, eval(s.input, true))
    else s
  }

  /** A button press; the equal key carries the opaque "view mentions '!'" test. */
  datatype Key =
    | DigitPress(digit: char)
    | OperatorPress(op: Operator)
    | DotPress
    | ClearPress
    | ErasePress
    | EqualPress(bangInView: bool)

  function Step(s: State, k: Key, eval: Evaluator): State {
    match k
    case DigitPress(d) => DigitKey(s, d)
    case OperatorPress(op) => OperatorKey(s, op)
    case DotPress => DotKey(s)
    case ClearPress => ClearKey(s)
    case ErasePress => EraseKey(s)
    case EqualPress(b) => EqualKey(s, b, eval)
  }

  /** The state after pressing the keys in order. */
  function Run(s: State, keys: seq<Key>, eval: Evaluator): State
    decreases |keys|
  {
    if keys == [] then s else Run(Step(s, keys[0], eval), keys[1..], eval)
  }

  /** The digits among the keys, in order; dots and other keys contribute nothing. */
  function Typed(keys: seq<Key>): string
    decreases |keys|
  {
    if keys == [] then []
    else (if keys[0].DigitPress? then [keys[0].digit] else []) + Typed(keys[1..])
  }

  predicate AllDigits(keys: seq<Key>) {
    forall i :: 0 <= i < |keys| ==> keys[i].DigitPress?
  }

  predicate DigitsAndDots(keys: seq<Key>) {
    forall i :: 0 <= i < |keys| ==> keys[i].DigitPress? || keys[i].DotPress?
  }

  /** Keys the activity can deliver: digit buttons carry a digit. */
  predicate WellFormed(keys: seq<Key>) {
    forall i :: 0 <= i < |keys| ==> keys[i].DigitPress? ==> IsDigit(keys[i].digit)
  }

  lemma {:induction false} RunAppend(s: State, a: seq<Key>, b: seq<Key>, eval: Evaluator)
    ensures Run(s, a + b, eval) == Run(Run(s, a, eval), b, eval)
    decreases |a|
  {
    if a != [] {
      assert (a + b)[0] == a[0];
      assert (a + b)[1..] == a[1..] + b;
      RunAppend(Step(s, a[0], eval), a[1..], b, eval);
    } else {
      assert a + b == b;
    }
  }

  lemma {:induction false} TypedAppend(a: seq<Key>, b: seq<Key>)
    ensures Typed(a + b) == Typed(a) + Typed(b)
    decreases |a|
  {
    if a != [] {
      assert (a + b)[0] == a[0];
      assert (a + b)[1..] == a[1..] + b;
      TypedAppend(a[1..], b);
    } else {
      assert a + b == b;
    }
  }

  /** Every sequence of key presses keeps the invariant. */
  lemma {:induction false} RunKeepsValid(s: State, keys: seq<Key>, eval: Evaluator)
    requires Valid(s)
    ensures Valid(Run(s, keys, eval))
    decreases |keys|
  {
    if keys != [] {
      RunKeepsValid(Step(s, keys[0], eval), keys[1..], eval);
    }
  }

  /**
   Digit keys build the input character by character: outside the error state
   they are appended; in the error state the first one replaces the input.
   */
  lemma {:induction false} DigitsAppend(s: State, keys: seq<Key>, eval: Evaluator)
    requires AllDigits(keys) && keys != []
    ensures Run(s, keys, eval).input == (if s.stateError then [] else s.input) + Typed(keys)
    ensures Run(s, keys, eval).lastNumeric && !Run(s, keys, eval).stateError
    ensures Run(s, keys, eval).lastDot == s.lastDot && Run(s, keys, eval).output == s.output
    decreases |keys|
  {
    var t := DigitKey(s, keys[0].digit);
    assert Run(s, keys, eval) == Run(t, keys[1..], eval);
    assert Typed(keys) == [keys[0].digit] + Typed(keys[1..]);
    assert t.input == (if s.stateError then [] else s.input) + [keys[0].digit];
    if |keys| == 1 {
      assert keys[1..] == [];
    } else {
      assert AllDigits(keys[1..]) by {
        forall i | 0 <= i < |keys[1..]| ensures keys[1..][i].DigitPress? {
          assert keys[1..][i] == keys[i + 1];
        }
      }
      DigitsAppend(t, keys[1..], eval);
    }
  }

  /**
   Once the current number holds a dot followed by a digit, further dot presses
   change nothing: digits are appended and the flags stay as they are, until an
   operator or Clear resets the dot flag.
   */
  lemma {:induction false} DotsIgnoredAfterDecimalDigit(s: State, keys: seq<Key>, eval: Evaluator)
    requires s.lastNumeric && s.lastDot && !s.stateError
    requires DigitsAndDots(keys)
    ensures Run(s, keys, eval) == s.(input := s.input + Typed(keys))
    decreases |keys|
  {
    if keys != [] {
      assert DigitsAndDots(keys[1..]) by {
        forall i | 0 <= i < |keys[1..]| ensures keys[1..][i].DigitPress? || keys[1..][i].DotPress? {
          assert keys[1..][i] == keys[i + 1];
        }
      }
      var t := Step(s, keys[0], eval);
      assert t == s.(input := s.input + Typed(keys[..1])) by {
        assert keys[..1] == [keys[0]];
        assert keys[..1][1..] == [];
      }
      DotsIgnoredAfterDecimalDigit(t, keys[1..], eval);
      assert keys == keys[..1] + keys[1..];
      TypedAppend(keys[..1], keys[1..]);
    }
  }

  /**
   Entering a decimal number: digits, one dot, at least one digit, then any
   further digits or dots. It starts either in the middle of a whole number or,
   with at least one leading digit, from the start state or after an operator.
   The input grows by exactly the typed digits with a single "." between the
   two parts, and the state ends in the "number with a dot" state.
   */
  lemma DecimalEntry(s: State, whole: seq<Key>, frac: seq<Key>, rest: seq<Key>, eval: Evaluator)
    requires !s.lastDot && !s.stateError && (s.lastNumeric || whole != [])
    requires AllDigits(whole) && AllDigits(frac) && frac != [] && DigitsAndDots(rest)
    ensures Run(s, whole + [DotPress] + frac + rest, eval).input
              == s.input + Typed(whole) + "." + Typed(frac) + Typed(rest)
    ensures var r := Run(s, whole + [DotPress] + frac + rest, eval);
              r.lastNumeric && r.lastDot && !r.stateError && r.output == s.output
  {
    var s1 := Run(s, whole, eval);
    if whole != [] {
      DigitsAppend(s, whole, eval);
    } else {
      assert Typed(whole) == [];
    }
    assert s1 == s.(input := s.input + Typed(whole), lastNumeric := true);
    var s2 := Run(s1, [DotPress], eval);
    assert s2 == s.(input := s.input + Typed(whole) + ".", lastNumeric := false, lastDot := true);
    var s3 := Run(s2, frac, eval);
    DigitsAppend(s2, frac, eval);
    DotsIgnoredAfterDecimalDigit(s3, rest, eval);
    RunAppend(s, whole, [DotPress], eval);
    RunAppend(s, whole + [DotPress], frac, eval);
    RunAppend(s, whole + [DotPress] + frac, rest, eval);
  }

  /** Pressing dot twice right after a digit gives ".0.": the second press sees a non-numeric last key. */
  lemma DoubleDotAppendsZero(s: State, eval: Evaluator)
    requires s.lastNumeric && !s.stateError && !s.lastDot
    ensures Run(s, [DotPress, DotPress], eval).input == s.input + ".0."
  {
    assert [DotPress, DotPress][1..] == [DotPress];
  }

  /**
   Erase does not restore the flags: erasing a dot just typed leaves the last
   key non-numeric, so the next dot appends "0." to the remaining digits.
   */
  lemma EraseThenDotAppendsZero(s: State, eval: Evaluator)
    requires s.lastNumeric && !s.stateError && !s.lastDot
    ensures Run(s, [DotPress, ErasePress, DotPress], eval).input == s.input + "0."
  {
    var k := [DotPress, ErasePress, DotPress];
    assert k[1..] == [ErasePress, DotPress];
    assert k[1..][1..] == [DotPress];
    var t := DotKey(s);
    assert t.input[..|t.input| - 1] == s.input;
  }

  /** After Clear nothing of the earlier history matters. */
  lemma ClearForgetsHistory(s: State, t: State, keys: seq<Key>, eval: Evaluator)
    ensures Run(s, [ClearPress] + keys, eval) == Run(t, [ClearPress] + keys, eval)
  {
    assert ([ClearPress] + keys)[1..] == keys;
  }

  /** An operator pressed right after Clear is rejected: the input stays empty. */
  lemma OperatorAfterClearRejected(s: State, op: Operator, eval: Evaluator)
    ensures Run(s, [ClearPress, OperatorPress(op)], eval) == Initial
  {
    var k := [ClearPress, OperatorPress(op)];
    assert k[1..] == [OperatorPress(op)];
    assert Run(s, k, eval) == Run(Initial, [OperatorPress(op)], eval);
    assert Run(Initial, [OperatorPress(op)], eval) == Run(Initial, [], eval);
  }

  /**
   The factorial path does not look at the error flag: in the error state an
   input containing '!' is still handed to the evaluator.
   */
  lemma FactorialPathIgnoresError(s: State, bangInView: bool, eval: Evaluator)
    requires Valid(s) && s.stateError && '!' in s.input
    ensures EqualKey(s, bangInView, eval) == Settle(s, eval(s.input, true))
  {
  }

  /** A '!' only enters the input through the factorial operator key. */
  lemma {:induction false} BangOnlyFromFactorialKey(s: State, keys: seq<Key>, eval: Evaluator)
    requires '!' !in s.input && WellFormed(keys)
    requires forall i :: 0 <= i < |keys| ==> keys[i] != OperatorPress(Factorial)
    ensures '!' !in Run(s, keys, eval).input
    decreases |keys|
  {
    if keys != [] {
      var t := Step(s, keys[0], eval);
      assert '!' !in t.input by {
        match keys[0]
        case DigitPress(d) =>
          assert IsDigit(d);
          assert t.input == (if s.stateError then [] else s.input) + [d];
        case OperatorPress(op) =>
          assert op != Factorial;
          assert t.input == s.input || t.input == s.input + Label(op);
        case DotPress =>
          assert t.input == s.input || t.input == s.input + "." || t.input == s.input + "0.";
        case ClearPress =>
        case ErasePress =>
          if s.input != [] {
            assert s.input == t.input + [s.input[|s.input| - 1]];
          }
        case EqualPress(b) =>
      }
      assert WellFormed(keys[1..]) by {
        forall i | 0 <= i < |keys[1..]| && keys[1..][i].DigitPress? ensures IsDigit(keys[1..][i].digit) {
          assert keys[1..][i] == keys[i + 1];
        }
      }
      BangOnlyFromFactorialKey(t, keys[1..], eval);
    }
  }
}
