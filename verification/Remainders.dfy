/** Remainders by a positive number that is not a constant. */
module Remainders {

  lemma {:induction false} MulMono(n: nat, a: int, b: int)
    requires a <= b
    ensures n * a <= n * b
  {
    assert n * b == n * a + n * (b - a);
  }

  lemma {:induction false} SmallMultiple(n: nat, q: int)
    ensures !(0 < n * q < n)
  {
    if q >= 1 {
      MulMono(n, 1, q);
    } else {
      MulMono(n, q, 0);
    }
  }

  lemma {:induction false} ModUnique(x: int, n: nat, q: int, r: nat)
    requires r < n && x == n * q + r
    ensures x % n == r
  {
    var q', r' := x / n, x % n;
    assert n * (q - q') == n * q - n * q' && n * (q' - q) == n * q' - n * q;
    SmallMultiple(n, q - q');
    SmallMultiple(n, q' - q);
  }

  lemma {:induction false} ModShift(x: int, q: int, n: nat)
    requires n > 0
    ensures (x + n * q) % n == x % n
  {
    var d := x / n;
    assert x == n * d + x % n;
    assert x + n * q == n * (d + q) + x % n by {
      assert n * (d + q) == n * d + n * q;
    }
    ModUnique(x + n * q, n, d + q, x % n);
  }

  lemma {:induction false} ModAdd(a: int, b: int, n: nat)
    requires n > 0
    ensures (a % n + b) % n == (a + b) % n
  {
    assert a == n * (a / n) + a % n;
    ModShift(a % n + b, a / n, n);
  }

  /** Numbers less than a ring apart have different places. */
  lemma {:induction false} ModDistinct(a: int, b: int, n: nat)
    requires n > 0 && 0 < b - a < n
    ensures a % n != b % n
  {
    var q := b / n - a / n;
    assert n * q == n * (b / n) - n * (a / n);
    SmallMultiple(n, q);
  }
}
