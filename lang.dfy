/**
 * Java-level vocabulary shared by every module: a nullable reference is an
 * `Option`, a call that may throw is a `Result`, and the exceptions the
 * library raises or lets through are the constructors of `Exception`.
 */
module Java {

  datatype Option<+T> = None | Some(value: T)

  /** The unchecked exceptions thrown or propagated by the modelled code. */
  datatype Exception =
    | IllegalState      // java.lang.IllegalStateException
    | IllegalArgument   // java.lang.IllegalArgumentException
    | IndexOutOfBounds  // java.lang.IndexOutOfBoundsException
    | NullPointer       // java.lang.NullPointerException

  /** The outcome of a Java call: a returned value or a thrown exception. */
  datatype Result<+T> = Ok(value: T) | Throws(exception: Exception)
  {
    predicate IsFailure() { Throws? }
  }

  /** `s.startsWith(prefix)` */
  predicate StartsWith(s: string, prefix: string)
  {
    |prefix| <= |s| && s[..|prefix|] == prefix
  }

  /** `Integer.toString(n)` for a non-negative `n`, written in decimal digits. */
  function Decimal(n: nat): (r: string)
    ensures |r| >= 1
    ensures forall i :: 0 <= i < |r| ==> '0' <= r[i] <= '9'
    decreases n
  {
    if n < 10 then [Digit(n)] else Decimal(n / 10) + [Digit(n % 10)]
  }

  function Digit(d: nat): (c: char)
    requires d < 10
    ensures '0' <= c <= '9'
  {
    ('0' as int + d) as char
  }

  /** Only the numbers below ten have one digit. */
  lemma DecimalLength(n: nat)
    ensures |Decimal(n)| == 1 <==> n < 10
  {
  }

  /** Distinct numbers have distinct decimal forms: the digits determine the number. */
  lemma {:induction false} DecimalInjective(a: nat, b: nat)
    requires Decimal(a) == Decimal(b)
    ensures a == b
    decreases a
  {
    var s := Decimal(a);
    DecimalLength(a);
    DecimalLength(b);
    if |s| == 1 {
      assert Digit(a) == s[0] == Digit(b);
    } else {
      assert s[..|s| - 1] == Decimal(a / 10);
      assert s[..|s| - 1] == Decimal(b / 10);
      DecimalInjective(a / 10, b / 10);
      assert Digit(a % 10) == s[|s| - 1] == Digit(b % 10);
    }
  }
}
