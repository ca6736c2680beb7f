/**
 The postfix factorial operator `!` that the calculator registers with its
 expression evaluator. Its `apply` receives one double operand; the model keeps
 the two facts the code derives from it: the operand truncated to a whole number
 (the `(long)` cast) and whether that truncation was exact (the cast back to
 double compares equal). The double accumulator is modelled as an exact natural.
 */
module Factorial {

  /** The operand as the code sees it after the `(long)` cast. */
  datatype Operand = Operand(truncated: int, exact: bool)

  /** Why the operator refuses its operand (both are thrown as IllegalArgumentException). */
  datatype Rejection = NotAnInteger | Negative

  datatype ApplyResult = Product(value: nat) | Rejected(reason: Rejection)

  /** n! as a specification: 0! = 1 and n! = (n-1)! * n. */
  function Fact(n: nat): (r: nat)
    ensures r >= 1
    ensures r >= n
  {
    if n == 0 then 1 else Fact(n - 1) * n
  }

  /** lo * (lo + 1) * ... * hi, multiplied from the bottom up; 1 when the range is empty. */
  function RangeProduct(lo: nat, hi: nat): nat
    decreases hi + 1 - lo
  {
    if lo > hi then 1 else lo * RangeProduct(lo + 1, hi)
  }

  /** Extending a non-empty range at the top multiplies by the new bound. */
  lemma {:induction false} RangeProductTop(lo: nat, hi: nat)
    requires 1 <= lo <= hi + 1
    ensures RangeProduct(lo, hi + 1) == RangeProduct(lo, hi) * (hi + 1)
    decreases hi + 1 - lo
  {
    if lo <= hi {
      RangeProductTop(lo + 1, hi);
      calc {
        RangeProduct(lo, hi + 1);
        lo * RangeProduct(lo + 1, hi + 1);
        lo * (RangeProduct(lo + 1, hi) * (hi + 1));
        (lo * RangeProduct(lo + 1, hi)) * (hi + 1);
        RangeProduct(lo, hi) * (hi + 1);
      }
    }
  }

  /** n! is the product 1 * 2 * ... * n. */
  lemma {:induction false} FactIsRangeProduct(n: nat)
    ensures Fact(n) == RangeProduct(1, n)
  {
    if n > 0 {
      FactIsRangeProduct(n - 1);
      RangeProductTop(1, n - 1);
    }
  }

  /** Every factor 1..n divides n!. */
  lemma {:induction false} FactDivisible(n: nat, k: nat)
    requires 1 <= k <= n
    ensures exists q: nat :: Fact(n) == q * k
  {
    if k == n {
      var q: nat := Fact(n - 1);
      assert Fact(n) == q * k;
    } else {
      FactDivisible(n - 1, k);
      var q: nat :| Fact(n - 1) == q * k;
      var p: nat := q * n;
      calc {
        Fact(n);
        Fact(n - 1) * n;
        (q * k) * n;
        { MulSwap(q, k, n); }
        p * k;
      }
    }
  }

  lemma MulSwap(a: int, b: int, c: int)
    ensures (a * b) * c == (a * c) * b
  {
  }

  /** 5! = 120, the value the factorial path should display for "5!". */
  lemma FactFive()
    ensures Fact(5) == 120
  {
  }

  /**
   The operator's apply: the integer check comes first, then the sign check,
   then a loop multiplying the accumulator by 1, 2, ..., n (never entered for 0).
   */
  method Apply(arg: Operand) returns (r: ApplyResult)
    ensures !arg.exact ==> r == Rejected(NotAnInteger)
    ensures arg.exact && arg.truncated < 0 ==> r == Rejected(Negative)
    ensures arg.exact && arg.truncated >= 0 ==> r == Product(Fact(arg.truncated))
    ensures arg == Operand(0, true) ==> r == Product(1)
  {
    if !arg.exact {
      return Rejected(NotAnInteger);
    }
    if arg.truncated < 0 {
      return Rejected(Negative);
    }
    var result: nat := 1;
    var i := 1;
    while i <= arg.truncated
      invariant 1 <= i <= arg.truncated + 1
      invariant result == Fact(i - 1)
    {
      result := result * i;
      i := i + 1;
    }
    return Product(result);
  }
}
