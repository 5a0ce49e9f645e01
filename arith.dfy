/** Small facts of integer arithmetic that the solver does not find alone. */
module Arith {

  lemma MulMonotone(a: int, b: int, c: int)
    requires a <= b && c >= 0
    ensures a * c <= b * c
  {
    assert b * c - a * c == (b - a) * c;
  }

  lemma ModOfShift(r: int, m: int, k: int)
    requires m >= 1 && 0 <= r < m && k >= 0
    ensures (r + k * m) % m == r && (r + k * m) / m == k
  {
    var s := r + k * m;
    var q := s / m;
    assert s == q * m + s % m;
    if q > k { MulMonotone(k + 1, q, m); assert false; }
    if q < k { MulMonotone(q + 1, k, m); assert false; }
  }
}
