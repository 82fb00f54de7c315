/**
  Java's 32-bit `int` and its wrap-around arithmetic.

  Java evaluates `int` expressions modulo 2^32 and reads the result back as a
  signed two's-complement value.  `Wrap` performs that reduction on an
  unbounded Dafny integer, so an `int` expression of the source is modelled as
  the mathematical expression followed by `Wrap`.
*/
module JavaInt {

  /** A Java `int`. */
  newtype int32 = x: int | -0x8000_0000 <= x < 0x8000_0000

  /** Reduces `x` to the Java `int` that Java arithmetic would produce for it. */
  function Wrap(x: int): (r: int32)
    ensures (x - r as int) % 0x1_0000_0000 == 0
    ensures -0x8000_0000 <= x < 0x8000_0000 ==> r as int == x
  {
    ((x + 0x8000_0000) % 0x1_0000_0000 - 0x8000_0000) as int32
  }

  /** Adding a whole number of 2^32 does not change a Euclidean remainder modulo 2^32. */
  lemma ModShift(a: int, k: int)
    ensures (a + k * 0x1_0000_0000) % 0x1_0000_0000 == a % 0x1_0000_0000
  {
    var q, r := a / 0x1_0000_0000, a % 0x1_0000_0000;
    assert a + k * 0x1_0000_0000 == (q + k) * 0x1_0000_0000 + r;
  }

  /** Two integers congruent modulo 2^32 wrap to the same Java `int`. */
  lemma WrapCongruent(x: int, y: int)
    requires (x - y) % 0x1_0000_0000 == 0
    ensures Wrap(x) == Wrap(y)
  {
    var k := (x - y) / 0x1_0000_0000;
    assert x == y + k * 0x1_0000_0000;
    ModShift(y + 0x8000_0000, k);
  }

  /**
    One step `31 * result + v` of a Java hash fold: wrapping the running
    result first gives the same Java `int` as wrapping only at the end.
  */
  lemma WrapHashStep(x: int, v: int)
    ensures Wrap(31 * (Wrap(x) as int) + v) == Wrap(31 * x + v)
  {
    var w := Wrap(x) as int;
    var k := (x - w) / 0x1_0000_0000;
    assert x - w == k * 0x1_0000_0000;
    assert (31 * x + v) - (31 * w + v) == (31 * k) * 0x1_0000_0000;
    ModShift(0, 31 * k);
    WrapCongruent(31 * x + v, 31 * w + v);
  }

  /**
    The hash fold `result = 31 * result + h` over `hs` in Java `int`
    arithmetic, every step wrapping; the first step leaves `hs[0]` itself.
  */
  function HashFold(hs: seq<int32>): int32 {
    if hs == [] then 0 else Wrap(31 * HashFold(hs[..|hs| - 1]) as int + hs[|hs| - 1] as int)
  }

  /** The same fold over unbounded integers: the polynomial in 31 with coefficients `hs`. */
  function ExactFold(hs: seq<int32>): int {
    if hs == [] then 0 else 31 * ExactFold(hs[..|hs| - 1]) + hs[|hs| - 1] as int
  }

  /** Wrapping at every step gives the exact polynomial reduced once to a Java `int`. */
  lemma {:induction false} HashFoldWrapsExactFold(hs: seq<int32>)
    ensures HashFold(hs) == Wrap(ExactFold(hs))
  {
    if hs != [] {
      var init := hs[..|hs| - 1];
      HashFoldWrapsExactFold(init);
      WrapHashStep(ExactFold(init), hs[|hs| - 1] as int);
    }
  }

  /** The exact fold of five hashes, written out. */
  lemma ExactFoldOfFive(a: int32, b: int32, c: int32, d: int32, e: int32)
    ensures ExactFold([a, b, c, d, e])
      == 923521 * a as int + 29791 * b as int + 961 * c as int + 31 * d as int + e as int
  {
    assert [a, b, c, d, e][..4] == [a, b, c, d] && [a, b, c, d][..3] == [a, b, c];
    assert [a, b, c][..2] == [a, b] && [a, b][..1] == [a] && [a][..0] == [];
    assert ExactFold([a]) == a as int;
    assert ExactFold([a, b]) == 31 * a as int + b as int;
    assert ExactFold([a, b, c]) == 961 * a as int + 31 * b as int + c as int;
    assert ExactFold([a, b, c, d]) == 29791 * a as int + 961 * b as int + 31 * c as int + d as int;
  }

  /** The fold of five hashes is their polynomial in 31 reduced once to a Java `int`. */
  lemma HashFoldOfFive(a: int32, b: int32, c: int32, d: int32, e: int32)
    ensures HashFold([a, b, c, d, e])
      == Wrap(923521 * a as int + 29791 * b as int + 961 * c as int + 31 * d as int + e as int)
  {
    HashFoldWrapsExactFold([a, b, c, d, e]);
    ExactFoldOfFive(a, b, c, d, e);
  }
}
