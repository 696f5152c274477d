/**
 * Products of reals kept behind two functions, so that the solver reasons about
 * them through the small lemmas below instead of through non-linear arithmetic.
 */
module RealArith {

  function Square(a: real): real { a * a }

  function Mul(a: real, b: real): real { a * b }

  lemma MulPositive(a: real, b: real)
    requires a > 0.0 && b > 0.0
    ensures Mul(a, b) > 0.0
  {
  }

  lemma SquareOfNegation(a: real)
    ensures Square(-a) == Square(a)
  {
  }

  lemma DifferenceOfSquares(a: real, b: real)
    ensures Square(b) - Square(a) == Mul(b - a, b + a)
  {
  }

  lemma SquarePositive(a: real)
    ensures Square(a) >= 0.0 && (a != 0.0 ==> Square(a) > 0.0)
  {
    if a > 0.0 {
      MulPositive(a, a);
      assert Mul(a, a) == Square(a);
    } else if a < 0.0 {
      MulPositive(-a, -a);
      assert Mul(-a, -a) == Square(-a);
      SquareOfNegation(a);
    }
  }

  lemma SquareStrictMono(a: real, b: real)
    requires 0.0 <= a < b
    ensures Square(a) < Square(b)
  {
    MulPositive(b - a, b + a);
    DifferenceOfSquares(a, b);
  }
}
