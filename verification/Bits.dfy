/** Powers of two and the bit operations of unsigned words, on natural numbers. */
module Bits {
  import opened Division

  function Pow2(n: nat): (p: nat)
    ensures p > 0
  {
    if n == 0 then 1 else 2 * Pow2(n - 1)
  }

  lemma {:induction false} Pow2Sum(m: nat, n: nat)
    ensures Pow2(m + n) == Pow2(m) * Pow2(n)
  {
    if m > 0 {
      Pow2Sum(m - 1, n);
      assert Pow2(m + n) == 2 * Pow2(m - 1 + n);
      assert 2 * (Pow2(m - 1) * Pow2(n)) == 2 * Pow2(m - 1) * Pow2(n);
    }
  }

  lemma {:induction false} Pow2Monotonic(m: nat, n: nat)
    requires m <= n
    ensures Pow2(m) <= Pow2(n)
  {
    if m < n {
      Pow2Monotonic(m, n - 1);
    }
  }

  lemma Pow2Values()
    ensures Pow2(7) == 128 && Pow2(8) == 256 && Pow2(64) == 0x1_0000_0000_0000_0000
  {
    assert Pow2(4) == 16;
    Pow2Sum(4, 4);
    Pow2Sum(8, 8);
    Pow2Sum(16, 16);
    Pow2Sum(32, 32);
  }

  /** n ones. */
  function Ones(n: nat): nat { Pow2(n) - 1 }

  /** x shifted left by s places, without losing bits. */
  function Shifted(x: nat, s: nat): nat { x * Pow2(s) }

  /** Bitwise and. */
  function And(x: nat, y: nat): nat {
    if x == 0 || y == 0 then 0 else 2 * And(x / 2, y / 2) + if x % 2 == 1 && y % 2 == 1 then 1 else 0
  }

  /** Bitwise or. */
  function Or(x: nat, y: nat): nat {
    if x == 0 then y else if y == 0 then x
    else 2 * Or(x / 2, y / 2) + if x % 2 == 1 || y % 2 == 1 then 1 else 0
  }

  /** Or-ing bits into zeros adds them. */
  lemma {:induction false} OrIntoZeros(x: nat, b: nat, n: nat)
    requires b < Pow2(n)
    ensures Or(Shifted(x, n), b) == Shifted(x, n) + b
  {
    if n == 0 {
    } else if Shifted(x, n) != 0 && b != 0 {
      Doubled(x, Pow2(n - 1));
      OrIntoZeros(x, b / 2, n - 1);
    }
  }

  /** And-ing with n ones takes the lowest n bits. */
  lemma {:induction false} AndOnes(x: nat, n: nat)
    ensures And(x, Ones(n)) == x % Pow2(n)
  {
    if n == 0 {
    } else if x == 0 {
    } else {
      AndOnes(x / 2, n - 1);
      assert Ones(n) / 2 == Ones(n - 1) && Ones(n) % 2 == 1;
      HalfRemainder(x, Pow2(n - 1));
    }
  }

  lemma HalfRemainder(x: nat, m: nat)
    requires m > 0
    ensures x % (2 * m) == 2 * (x / 2 % m) + x % 2
  {
    var q, r := x / 2 / m, x / 2 % m;
    assert x / 2 == q * m + r;
    Doubled(q, m);
    Residue(x, 2 * m, q, 2 * r + x % 2);
  }

  lemma AndEven(x: nat, y: nat)
    ensures And(x, 2 * y) == 2 * And(x / 2, y)
  {
    assert 2 * y / 2 == y && 2 * y % 2 == 0;
  }

  /** And-ing with n ones shifted by s takes bits s up to s + n, in place. */
  lemma {:induction false} AndShiftedOnes(x: nat, n: nat, s: nat)
    ensures And(x, Shifted(Ones(n), s)) == Shifted(x / Pow2(s) % Pow2(n), s)
  {
    if s == 0 {
      AndOnes(x, n);
    } else {
      var p := Pow2(s - 1);
      var mask := Shifted(Ones(n), s - 1);
      Doubled(Ones(n), p);
      AndEven(x, mask);
      AndShiftedOnes(x / 2, n, s - 1);
      DivTwice(x, p);
      Doubled(x / 2 / p % Pow2(n), p);
    }
  }

  lemma Doubled(y: nat, p: nat)
    ensures 2 * (y * p) == y * (2 * p)
  {}

  lemma DivByTwice(x: nat, m: nat)
    requires m > 0
    ensures x / m / 2 == x / (2 * m)
  {
    var q, r := x / m, x % m;
    assert x == q / 2 * (2 * m) + (q % 2 * m + r);
    Residue(x, 2 * m, q / 2, q % 2 * m + r);
  }

  lemma DivTwice(x: nat, m: nat)
    requires m > 0
    ensures x / 2 / m == x / (2 * m)
  {
    var q, r := x / 2 / m, x / 2 % m;
    assert x / 2 == q * m + r;
    Doubled(q, m);
    Residue(x, 2 * m, q, 2 * r + x % 2);
  }
}
