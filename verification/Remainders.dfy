/** Facts about products and remainders that the solver needs to be told one at a time. */
module Remainders {
  lemma Division(x: int, m: int)
    requires m > 0
    ensures x == m * (x / m) + x % m && 0 <= x % m < m
  {}

  lemma Products(k: int, m: int)
    requires m > 0
    ensures k >= 1 ==> m * k >= m
    ensures k <= 0 ==> m * k <= 0
    ensures k <= -1 ==> m * k <= 0 - m
  {}

  /** Multiples of m are not strictly between two neighbouring ones. */
  lemma NoRoom(k: int, m: int)
    requires 0 <= m * k < m
    ensures k == 0
  {}

  lemma IsMultiple(x: int, k: int, m: int)
    requires m > 0 && x == m * k
    ensures x % m == 0
  {
    Division(x, m);
    var rest := k - x / m;
    assert m * rest == x % m;
    NoRoom(rest, m);
  }

  /** Multiples of m have multiples of m as sum and difference. */
  lemma AddMultiples(x: int, y: int, m: int)
    requires m > 0 && x % m == 0 && y % m == 0
    ensures (x + y) % m == 0 && (x - y) % m == 0
  {
    Division(x, m);
    Division(y, m);
    var a, b := x / m, y / m;
    assert x + y == m * (a + b) && x - y == m * (a - b);
    IsMultiple(x + y, a + b, m);
    IsMultiple(x - y, a - b, m);
  }

  /** Below a larger multiple of m there is room for m. */
  lemma RoomForOne(x: nat, top: nat, m: int)
    requires m > 0 && x % m == 0 && top % m == 0 && x < top
    ensures x + m <= top
  {
    AddMultiples(top, x, m);
    Division(top - x, m);
    Products((top - x) / m, m);
  }

  /** Numbers less than m apart leave different remainders. */
  lemma RemaindersDiffer(a: int, b: int, m: int)
    requires m > 0 && a < b < a + m
    ensures a % m != b % m
  {
    Division(a, m);
    Division(b, m);
    var q := b / m - a / m;
    assert m * q == (b - a) - (b % m - a % m);
    Products(q, m);
  }
}
