/** Java's integer operators on int, written out over Dafny's unbounded
    integers. Java's `/` rounds toward zero and `%` takes the sign of the
    dividend (section 15.17.2 and 15.17.3 of the Java Language
    Specification); Dafny's own `/` and `%` are Euclidean. */
module JavaInt {

  function Abs(x: int): (r: int)
    ensures r >= 0 && (r == x || r == -x)
  {
    if x < 0 then -x else x
  }

  function Min(a: int, b: int): (r: int)
    ensures r <= a && r <= b && (r == a || r == b)
  {
    if a <= b then a else b
  }

  /** `a / b` in Java: the quotient rounded toward zero. The remainder it
      leaves is smaller than the divisor and has the dividend's sign. */
  function Div(a: int, b: int): (q: int)
    requires b != 0
    ensures Abs(q * b) <= Abs(a)
    ensures Abs(a - q * b) < Abs(b)
    ensures a >= 0 ==> a - q * b >= 0
    ensures a <= 0 ==> a - q * b <= 0
  {
    var n: nat, d: nat := Abs(a), Abs(b);
    var q0 := n / d;
    QuotientFacts(n, d);
    var q := if (a >= 0) == (b > 0) then q0 else -q0;
    assert q * b == (if a >= 0 then q0 * d else -(q0 * d)) by {
      if b > 0 { assert q0 * b == q0 * d; } else { assert q0 * b == -(q0 * d); }
    }
    assert a - q * b == (if a >= 0 then n - q0 * d else -(n - q0 * d));
    q
  }

  /** `a % b` in Java, defined as Java defines it, by `(a / b) * b + a % b == a`:
      it differs from the dividend by a multiple of the divisor, is smaller
      than the divisor and has the dividend's sign. */
  function Rem(a: int, b: int): (r: int)
    requires b != 0
    ensures (a - r) % b == 0
    ensures Abs(r) < Abs(b)
    ensures a >= 0 ==> r >= 0
    ensures a <= 0 ==> r <= 0
  {
    var q := Div(a, b);
    assert (q * b) % b == 0 by {
      DivModUnique(q * b, Abs(b), if b > 0 then q else -q, 0);
    }
    a - q * b
  }

  lemma QuotientFacts(n: nat, d: nat)
    requires d > 0
    ensures n == (n / d) * d + n % d
    ensures 0 <= n % d < d
    ensures 0 <= (n / d) * d <= n
  {
  }

  /** On a non-negative dividend and a positive divisor Java and Dafny agree. */
  lemma DivRemNonNegative(a: int, b: int)
    requires a >= 0 && b > 0
    ensures Div(a, b) == a / b && Rem(a, b) == a % b
  {
  }

  /** Euclidean division is determined by its quotient and remainder. */
  lemma {:induction false} DivModUnique(x: int, n: int, q: int, r: int)
    requires n > 0 && 0 <= r < n && x == q * n + r
    ensures x / n == q && x % n == r
  {
    var q', r' := x / n, x % n;
    assert x == q' * n + r';
    assert (q - q') * n == r' - r;
    MulBounds(q - q', n);
  }

  lemma MulBounds(k: int, n: int)
    requires n > 0
    ensures k >= 1 ==> k * n >= n
    ensures k <= -1 ==> k * n <= -n
  {
  }
}
