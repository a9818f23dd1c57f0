/** Numbers written with digits of several bases. */
module Radix {

  lemma Positive(a: nat, b: nat)
    requires a > 0 && b > 0
    ensures a * b > 0
  {
  }

  lemma PositionBound(n: nat, size: nat, k: nat)
    requires k < n * size
    ensures size > 0 && k / size < n
    ensures k == k / size * size + k % size && k % size < size
  {
    var q := k / size;
    assert k == q * size + k % size;
    if q >= n { Monotone(n, q, size); }
  }

  lemma Monotone(a: nat, b: nat, n: nat)
    requires a <= b
    ensures a * n <= b * n
  {
  }

  lemma Next(a: nat, b: nat, n: nat)
    requires a < b
    ensures a * n + n <= b * n
  {
    Monotone(a + 1, b, n);
    assert (a + 1) * n == a * n + n;
  }

  lemma RadixBound(a: nat, n: nat, b: nat, m: nat)
    requires a < n && b < m
    ensures a * m + b < n * m
  {
    Next(a, n, m);
  }

  lemma Digits(q: nat, r: nat, n: nat)
    requires r < n
    ensures (q * n + r) / n == q && (q * n + r) % n == r
  {
    var d, m := (q * n + r) / n, (q * n + r) % n;
    assert q * n + r == d * n + m;
    if q > d { Next(d, q, n); }
    if q < d { Next(q, d, n); }
  }

  lemma ThreeDigits(a: nat, b: nat, c: nat, r: nat)
    requires r < a * (b * c) && b * c > 0
    ensures c > 0 && r / (b * c) < a && r % (b * c) / c < b
    ensures r == r / (b * c) * (b * c) + r % (b * c) / c * c + r % (b * c) % c
  {
    var box := b * c;
    PositionBound(a, box, r);
    var low := r % box;
    PositionBound(b, c, low);
  }
}
