/** Division with remainder by an arbitrary positive number. */
module Division {

  lemma Multiple(d: int, m: int)
    requires m > 0
    ensures d > 0 ==> d * m >= m
    ensures d < 0 ==> d * m <= -m
  {
    if d > 0 {
      assert (d - 1) * m >= 0;
    } else if d < 0 {
      assert (-d - 1) * m >= 0;
    }
  }

  /** Quotient and remainder are unique. */
  lemma Residue(x: nat, m: nat, q: nat, r: nat)
    requires r < m && x == q * m + r
    ensures x % m == r && x / m == q
  {
    var d := x / m - q;
    assert x == x / m * m + x % m;
    assert d * m == r - x % m;
    Multiple(d, m);
  }

  lemma ModSum(x: nat, y: nat, m: nat)
    requires m > 0
    ensures (x % m + y) % m == (x + y) % m
  {
    var q := x / m;
    var r := (x % m + y) % m;
    var p := (x % m + y) / m;
    assert x + y == (q + p) * m + r;
    Residue(x + y, m, q + p, r);
  }

  /** A number in two digits is below the product of their bounds. */
  lemma Below(hi: nat, m: nat, lo: nat, p: nat)
    requires hi < m && lo < p
    ensures hi * p + lo < m * p
  {
    var d := m - hi - 1;
    assert d * p >= 0;
    assert d * p == m * p - hi * p - p;
  }

  lemma Small(x: nat, m: nat)
    requires x < m
    ensures x % m == x
  {}
}
