/** Machine words: the 32-bit wrapping counters of the kernel and the unbounded
    counters they stand for. A step function takes a Width and so describes both
    machines at once. */
module Words {
  const U32: int := 0x1_0000_0000
  const U64: int := 0x1_0000_0000_0000_0000
  const HALF: int := 0x8000_0000

  /** Exact counters never wrap; Bits32 counters are kept modulo 2^32. */
  datatype Width = Exact | Bits32

  function Wrap(w: Width, x: int): int {
    if w.Bits32? then x % U32 else x
  }

  /** The value of the low 32 bits of x read as a signed number. */
  function S32(x: int): (r: int)
    ensures -HALF <= r < HALF
    ensures (x - r) % U32 == 0
  {
    var low := x % U32;
    if low < HALF then low else low - U32
  }

  /** The value of the low 16 bits of x read as a signed number. */
  function S16(x: int): (r: int)
    ensures -0x8000 <= r < 0x8000
    ensures (x - r) % 0x1_0000 == 0
  {
    var low := x % 0x1_0000;
    if low < 0x8000 then low else low - 0x1_0000
  }

  /** a - b on counters of width w. */
  function Diff(w: Width, a: int, b: int): int {
    Wrap(w, a - b)
  }

  /** The signed distance from b to a. */
  function SDiff(w: Width, a: int, b: int): int {
    if w.Bits32? then S32(a - b) else a - b
  }

  /** The kernel's before(a, b): a comes before b on the counter circle. */
  predicate Before(w: Width, a: int, b: int) {
    SDiff(w, a, b) < 0
  }

  predicate After(w: Width, a: int, b: int) {
    Before(w, b, a)
  }

  lemma WrapSum(a: int, b: int)
    ensures (a % U32 + b) % U32 == (a + b) % U32
  {}

  lemma {:induction false} ModShift(x: int, k: int)
    ensures (x + U32 * k) % U32 == x % U32
    decreases if k < 0 then -k else k
  {
    if k > 0 {
      ModShift(x, k - 1);
      assert x + U32 * k == (x + U32 * (k - 1)) + U32;
    } else if k < 0 {
      ModShift(x, k + 1);
      assert x + U32 * k == (x + U32 * (k + 1)) - U32;
    }
  }

  /** The wrapping difference of wrapped counters is the true one while the true
      one fits the word. */
  lemma DiffAgrees(a: int, b: int)
    requires 0 <= a - b < U32
    ensures Diff(Bits32, a % U32, b % U32) == Diff(Exact, a, b)
  {}

  /** before() and after() on wrapped counters order them as the unbounded counters
      do, while they stay within 2^31 of each other. */
  lemma SDiffAgrees(a: int, b: int)
    requires -HALF <= a - b < HALF
    ensures SDiff(Bits32, a % U32, b % U32) == SDiff(Exact, a, b)
  {}
}
