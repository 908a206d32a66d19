/** Remainders by a positive, non-constant modulus. */
module ModArith {
  lemma Distribute(a: int, b: int, c: int)
    ensures (a - b) * c == a * c - b * c
    ensures (a + b) * c == a * c + b * c
  {
  }

  lemma Multiple(d: int, m: int)
    requires m > 0
    ensures d > 0 ==> d * m >= m
    ensures d < 0 ==> d * m <= -m
  {
  }

  lemma ModIs(x: int, q: int, r: int, m: int)
    requires 0 <= r < m && x == q * m + r
    ensures x % m == r && x / m == q
  {
    Distribute(x / m, q, m);
    Multiple(x / m - q, m);
  }

  lemma ModPlus(x: int, k: int, m: int)
    requires m > 0
    ensures (x + k * m) % m == x % m
  {
    Distribute(x / m, -k, m);
    ModIs(x + k * m, x / m + k, x % m, m);
  }

  lemma ModAbsorb(x: int, y: int, m: int)
    requires m > 0
    ensures (x + y % m) % m == (x + y) % m
    ensures (y % m + x) % m == (x + y) % m
  {
    ModPlus(x + y % m, y / m, m);
  }

  lemma ModDiff(a: int, b: int, m: int)
    requires m > 0
    ensures (a % m - b % m) % m == (a - b) % m
  {
    Distribute(a / m, b / m, m);
    ModPlus(a % m - b % m, a / m - b / m, m);
  }

  lemma ModNested(x: int, m: int, cap: int)
    requires cap > 0 && m > 0 && m % cap == 0
    ensures (x % m) % cap == x % cap
  {
    var k := m / cap;
    assert m == k * cap;
    Associate(x / m, k, cap);
    ModPlus(x % m, x / m * k, cap);
  }

  lemma Associate(a: int, b: int, c: int)
    ensures a * (b * c) == (a * b) * c
  {
  }

  // Two numbers of the same residue, less than the modulus apart, are equal.
  lemma ModUnique(a: int, b: int, m: int)
    requires m > 0 && a % m == b % m && -m < a - b < m
    ensures a == b
  {
    Distribute(a / m, b / m, m);
    Multiple(a / m - b / m, m);
  }

  // The same residue after the same shift.
  lemma ModShift(a: int, b: int, d: int, m: int)
    requires m > 0 && a % m == b % m
    ensures (a + d) % m == (b + d) % m
  {
    Distribute(a / m, b / m, m);
    ModPlus(b + d, a / m - b / m, m);
  }

  // Congruence modulo m implies congruence modulo a divisor of m.
  lemma ModCoarser(a: int, b: int, m: int, cap: int)
    requires cap > 0 && m > 0 && m % cap == 0 && a % m == b % m
    ensures a % cap == b % cap
  {
    ModNested(a, m, cap);
    ModNested(b, m, cap);
  }
}
