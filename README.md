# Calculator keypad state machine

A model of the single-screen calculator activity (`MainActivity`). Digit,
operator, dot, clear, erase and equal buttons feed an input field; the equal
button hands the input to an expression evaluator and shows the result or the
marker "Error" in an output field. Four pieces of state govern which presses
are accepted: the input text and the flags `lastNumeric`, `stateError` and
`lastDot`. A postfix factorial operator `!` is registered with the evaluator
on one of the two evaluation paths.

The project has three modules:

- `Factorial` (`factorial.dfy`): the factorial operator's `apply`. The
  operand is the whole number produced by the truncating cast, with a flag
  saying whether the cast was exact. `Apply` runs the operator's
  multiplication loop and is proved equal to the specification `Fact`. Lemmas
  show that `Fact(n)` is the product 1·2·…·n, that every factor divides it,
  and that 5! = 120.
- `Keypad` (`keypad.dfy`): the state as a value, with one transition function
  per listener. `Step` and `Run` apply key presses in order. The lemmas cover
  sequences of presses: the invariant `stateError ==> !lastNumeric` holds
  throughout, digits build the input, dots are ignored once a number has a
  dot and a following digit, a decimal number typed from the start, after an
  operator or after digits gets exactly one dot, clear forgets everything
  before it, and '!' only ever comes from the factorial key.
- `Activity` (`main_activity.dfy`): class `MainActivity` with the five
  fields. Each listener is a method that updates the fields in place. Its
  contract says what the fields hold afterwards and equates the new
  `Snapshot()` with the matching `Keypad` transition.

The evaluator is a parameter of type `(string, bool) -> Outcome`. It takes
the input text and whether the factorial operator is registered, and returns
either `Value(text)`, meaning the formatted result, or `ArithmeticError`.

Some behaviours of the code go against the code's own comments. The model
follows the code:

- The field comment at MainActivity.java:26 says a set `lastDot` forbids
  another dot. Yet pressing dot twice right after a digit gives ".0.": the
  first dot clears `lastNumeric`, so the second press takes the "0." branch
  (`DoubleDotAppendsZero`).
- Erase restores no flag. Erasing a freshly typed dot and pressing dot again
  appends "0." after the remaining digits, so "3" becomes "30."
  (`EraseThenDotAppendsZero`).
- The comment at MainActivity.java:161 says nothing happens in the error
  state. The factorial path at MainActivity.java:181 never tests
  `stateError`, so an input containing '!' is still evaluated there
  (`FactorialPathIgnoresError`).
- The factorial button is one of the operator buttons (MainActivity.java:19),
  so `!` is appended under the same guard as any other operator.
- The plain path tests whether the *description* of the input view contains
  '!', not whether its text does. The model treats that test as an opaque
  boolean, `bangInView`.

## Model

| member | source | states |
|---|---|---|
| Factorial.Fact | app/src/main/java/com/example/digitalfactory/MainActivity.java:148-152 | the factorial is at least 1 and at least its argument |
| Factorial.Apply | app/src/main/java/com/example/digitalfactory/MainActivity.java:138-153 | a non-integer operand is rejected first, then a negative one; otherwise the loop yields exactly Fact(n), and 0 yields 1 |
| Factorial.FactIsRangeProduct | app/src/main/java/com/example/digitalfactory/MainActivity.java:148-151 | Fact(n) equals the product 1·2·…·n multiplied from the bottom up |
| Factorial.FactDivisible | app/src/main/java/com/example/digitalfactory/MainActivity.java:148-151 | every k with 1 ≤ k ≤ n divides Fact(n) |
| Factorial.FactFive | app/src/main/java/com/example/digitalfactory/MainActivity.java:148-152 | 5! = 120 |
| Keypad.Label | app/src/main/java/com/example/digitalfactory/MainActivity.java:19 | every operator label is non-empty, and a label contains '!' exactly when it belongs to the factorial button |
| Keypad.DigitKey | app/src/main/java/com/example/digitalfactory/MainActivity.java:54-63 | the digit ends the input; in the error state it is the whole input, otherwise it follows the old input; lastNumeric becomes true, stateError false, lastDot and output unchanged |
| Keypad.OperatorKey | app/src/main/java/com/example/digitalfactory/MainActivity.java:82-87 | the state changes exactly when lastNumeric && !stateError; it then appends the label and clears lastNumeric and lastDot; the invariant is kept |
| Keypad.DotKey | app/src/main/java/com/example/digitalfactory/MainActivity.java:98-106 | the three cases: "." with lastDot set and lastNumeric cleared; "0." with every flag unchanged whenever the last key was not numeric; otherwise nothing changes |
| Keypad.ClearKey | app/src/main/java/com/example/digitalfactory/MainActivity.java:114-119 | from any state, both fields become empty and all flags false |
| Keypad.EraseKey | app/src/main/java/com/example/digitalfactory/MainActivity.java:203-208 | a non-empty input loses exactly its last character; an empty input changes nothing; flags and output are untouched |
| Keypad.Settle | app/src/main/java/com/example/digitalfactory/MainActivity.java:170-178 | a value is shown with lastDot set; an arithmetic error shows "Error", sets stateError and clears lastNumeric; the input is kept |
| Keypad.EqualKey | app/src/main/java/com/example/digitalfactory/MainActivity.java:164-198 | the two paths never both apply; if neither applies nothing changes; otherwise the evaluator's outcome is shown, with factorial registered exactly on the second path; the input never changes |
| Keypad.RunKeepsValid | app/src/main/java/com/example/digitalfactory/MainActivity.java:54-208 | any sequence of presses keeps stateError ==> !lastNumeric |
| Keypad.DigitsAppend | app/src/main/java/com/example/digitalfactory/MainActivity.java:54-63 | a run of digit presses appends exactly those digits, or replaces the input with them after an error |
| Keypad.DotsIgnoredAfterDecimalDigit | app/src/main/java/com/example/digitalfactory/MainActivity.java:98-106 | once a number has a dot and a following digit, dot presses change nothing and digits are appended, until an operator or clear |
| Keypad.DecimalEntry | app/src/main/java/com/example/digitalfactory/MainActivity.java:54-106 | from the start state, after an operator (with at least one leading digit) or mid-number: digits, one dot, digits, then any further digits or dots grow the input by the digits with a single "." between the parts, ending with lastNumeric and lastDot set |
| Keypad.DoubleDotAppendsZero | app/src/main/java/com/example/digitalfactory/MainActivity.java:98-106 | two dots after a digit append ".0." |
| Keypad.EraseThenDotAppendsZero | app/src/main/java/com/example/digitalfactory/MainActivity.java:98-208 | dot, erase, dot after a digit appends "0.": erase does not restore the flags |
| Keypad.ClearForgetsHistory | app/src/main/java/com/example/digitalfactory/MainActivity.java:114-119 | after clear, the outcome of later presses does not depend on the earlier state |
| Keypad.OperatorAfterClearRejected | app/src/main/java/com/example/digitalfactory/MainActivity.java:82-87 | an operator right after clear is ignored and the input stays empty |
| Keypad.FactorialPathIgnoresError | app/src/main/java/com/example/digitalfactory/MainActivity.java:181 | in the error state an input containing '!' is still evaluated with factorial registered |
| Keypad.BangOnlyFromFactorialKey | app/src/main/java/com/example/digitalfactory/MainActivity.java:19 | without a factorial key press, a '!' never appears in the input |
| Activity.MainActivity.constructor | app/src/main/java/com/example/digitalfactory/MainActivity.java:21-27 | both fields empty and every flag false |
| Activity.MainActivity.OnDigit | app/src/main/java/com/example/digitalfactory/MainActivity.java:51-64 | replaces the input in the error state and clears stateError, otherwise appends; lastNumeric true, lastDot unchanged |
| Activity.MainActivity.OnOperator | app/src/main/java/com/example/digitalfactory/MainActivity.java:79-88 | appends the label and clears lastNumeric and lastDot only when lastNumeric && !stateError; otherwise nothing changes |
| Activity.MainActivity.OnDot | app/src/main/java/com/example/digitalfactory/MainActivity.java:97-107 | the three dot cases, field by field |
| Activity.MainActivity.OnClear | app/src/main/java/com/example/digitalfactory/MainActivity.java:112-120 | both fields empty and every flag false, whatever the state |
| Activity.MainActivity.OnEqual | app/src/main/java/com/example/digitalfactory/MainActivity.java:160-199 | no change unless one of the two paths applies; then the outcome is shown as stated for Settle; the input never changes |
| Activity.MainActivity.OnErase | app/src/main/java/com/example/digitalfactory/MainActivity.java:201-209 | drops the last character of a non-empty input; the flags and the output are untouched |

## Left out

- Android plumbing is not modelled: `onCreate`, the layout, finding views and registering listeners. It is UI wiring with no state of its own.
- Button texts come from the layout file, which is not part of this model. Digit buttons are assumed to carry their digit. Operator buttons are assumed to carry the evaluator's symbol, and the factorial button carries "!".
- Expression parsing and evaluation by the exp4j library is foreign code. It is the `Evaluator` parameter, and nothing is proved about its arithmetic. This includes operator precedence and results such as "3+4*2" giving 11.
- Formatting of the result with `Double.toString` is left opaque. It is the `text` of `Value`.
- Factorial.Apply works on exact integers. It does not model the double accumulator, the rounding of large products, or the overflow of the `int` loop counter against the `long` operand. The operand's double value is reduced to its truncation and an exactness flag.
- Factorial.Apply is not connected to `EqualKey`. The evaluator calls it, and the evaluator is opaque.
- Uncaught exceptions crash the app and are not states of the machine. This covers the factorial's IllegalArgumentException and failures in `build()` outside the try block. `Outcome` therefore has no case for them.
- Activity.MainActivity.OnEqual: the check whether the input view's description contains '!' is the opaque parameter `bangInView`. The model does not compute it from the view.
