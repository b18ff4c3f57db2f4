/**
 * The calculator tool and the user proxy's termination test of the AutoGen
 * tool-use demo.
 */
module Calculator {
  import opened Wrappers
  import opened Text
  import opened ChatMessage

  /** The two exceptions `calculator` can raise. */
  datatype CalcError = ZeroDivision | InvalidOperator

  function Abs(x: int): nat { if x < 0 then -x else x }

  /** Python's `//` on a non-negative dividend and a positive divisor. */
  function Quotient(x: nat, y: nat): nat
    requires y > 0
  {
    x / y
  }

  /** `int(a / b)` for `b != 0`: the quotient of the magnitudes, negated when the signs differ. */
  function TruncDiv(a: int, b: int): (q: int)
    requires b != 0
    ensures Abs(q) == Quotient(Abs(a), Abs(b))
    ensures q == 0 || ((q < 0) <==> ((a < 0) != (b < 0)))
  {
    var m: int := Quotient(Abs(a), Abs(b));
    if (a < 0) != (b < 0) then -m else m
  }

  /** On a non-negative dividend and a positive divisor, truncation agrees with floor division. */
  lemma TruncDivNonNegative(a: int, b: int)
    requires a >= 0 && b > 0
    ensures TruncDiv(a, b) == a / b
  {
  }

  /** Truncation is symmetric in the signs of both operands, which floor division is not. */
  lemma TruncDivSigns(a: int, b: int)
    requires b != 0
    ensures TruncDiv(-a, b) == -TruncDiv(a, b)
    ensures TruncDiv(a, -b) == -TruncDiv(a, b)
  {
  }

  /** `calculator(a, b, operator)` */
  function Calculate(a: int, b: int, operator: string): (r: Result<int, CalcError>)
    ensures operator == "+" ==> r == Ok(a + b)
    ensures operator == "-" ==> r == Ok(a - b)
    ensures operator == "*" ==> r == Ok(a * b)
    ensures operator == "/" && b == 0 ==> r == Err(ZeroDivision)
    ensures operator == "/" && b != 0 ==>
              r.Ok? && Abs(r.value) == Quotient(Abs(a), Abs(b)) && (r.value == 0 || ((r.value < 0) <==> ((a < 0) != (b < 0))))
    ensures r == Err(InvalidOperator) <==> operator !in ["+", "-", "*", "/"]
  {
    if operator == "+" then Ok(a + b)
    else if operator == "-" then Ok(a - b)
    else if operator == "*" then Ok(a * b)
    else if operator == "/" then (if b == 0 then Err(ZeroDivision) else Ok(TruncDiv(a, b)))
    else Err(InvalidOperator)
  }

  /** Dividing a product by one factor gives back the other, whatever the signs. */
  lemma ExactDivision(q: int, b: int)
    requires b != 0
    ensures Calculate(q * b, b, "/") == Ok(q)
  {
    AbsMul(q, b);
    MulDiv(Abs(q), Abs(b));
    if q != 0 {
      SignOfProduct(q, b);
    }
  }

  lemma MulDiv(m: nat, n: nat)
    requires n > 0
    ensures Quotient(m * n, n) == m
  {
    var k, r := (m * n) / n, (m * n) % n;
    assert m * n == k * n + r && 0 <= r < n;
    var d := m - k;
    assert d * n == r by {
      assert d * n == m * n - k * n;
    }
  }

  lemma AbsMul(x: int, y: int)
    ensures Abs(x * y) == Abs(x) * Abs(y)
  {
    if x < 0 && y >= 0 {
      assert x * y == -(Abs(x) * y);
    } else if x >= 0 && y < 0 {
      assert x * y == -(x * Abs(y));
    } else if x < 0 && y < 0 {
      assert x * y == Abs(x) * Abs(y);
    }
  }

  lemma SignOfProduct(x: int, y: int)
    requires x != 0 && y != 0
    ensures (x * y < 0) <==> ((x < 0) != (y < 0))
  {
    AbsMul(x, y);
    if x < 0 && y >= 0 {
      assert x * y == -(Abs(x) * y);
    } else if x >= 0 && y < 0 {
      assert x * y == -(x * Abs(y));
    } else if x < 0 && y < 0 {
      assert x * y == Abs(x) * Abs(y);
    }
  }

  /** The user proxy's `is_termination_msg`: content present, not `None`, and holding "TERMINATE". */
  predicate IsTerminationMsg(content: Content)
    ensures IsTerminationMsg(content) ==> content.Str?
    ensures content.Str? && StartsWith(content.text, "TERMINATE") ==> IsTerminationMsg(content)
  {
    Get(content).Some? && Contains(content.text, "TERMINATE")
  }

  /** A message terminates the chat exactly when "TERMINATE" occurs at some offset of its text. */
  lemma TerminationIff(content: Content)
    ensures IsTerminationMsg(content) <==> content.Str? && exists i :: OccursAt(content.text, "TERMINATE", i)
  {
    if content.Str? {
      ContainsIff(content.text, "TERMINATE");
    }
  }
}
