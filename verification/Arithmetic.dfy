/** Facts about multiplication and remainders that the solver does not find on its own. */
module Arithmetic {

  lemma ModSum(a: nat, b: nat, m: nat)
    requires m > 0
    ensures (a % m + b % m) % m == (a + b) % m
  {
    var r := a % m + b % m;
    var q := a / m + b / m + r / m;
    assert a + b == q * m + r % m by {
      assert a == a / m * m + a % m;
      assert b == b / m * m + b % m;
      assert r == r / m * m + r % m;
      Distribute(a / m, b / m, r / m, m);
    }
    DivModUnique(a + b, q, r % m, m);
  }

  lemma Distribute(x: int, y: int, z: int, m: int)
    ensures (x + y + z) * m == x * m + y * m + z * m
  {
  }

  lemma AtLeastOnce(k: int, m: int)
    requires k >= 1 && m > 0
    ensures k * m >= m
  {
  }

  lemma DivModUnique(x: int, q: int, r: int, m: nat)
    requires m > 0 && x == q * m + r && 0 <= r < m
    ensures x % m == r
  {
    var q', r' := x / m, x % m;
    assert x == q' * m + r';
    if q > q' {
      AtLeastOnce(q - q', m);
      Distribute(q - q', q', 0, m);
    } else if q < q' {
      AtLeastOnce(q' - q, m);
      Distribute(q' - q, q, 0, m);
    }
  }

  lemma MulMono(a: nat, b: nat, c: nat)
    requires b <= c
    ensures a * b <= a * c
  {
  }
}
