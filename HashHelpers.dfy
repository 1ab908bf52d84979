/** Hash-code combination of `HashHelpers`. A C# `int` is a 32-bit two's
    complement value and the arithmetic runs in an `unchecked` block, so every
    value here is its bit pattern as a `bv32`: `+` wraps modulo 2^32 exactly
    as the unchecked addition does, and `>>` on the `uint` cast is a logical
    shift. */
module HashHelpers {

  /** Rotation of a 32-bit pattern left by `n` places, one place at a time:
      the ROL instruction that the two-shift expression compiles to. */
  function RotateLeft(h: bv32, n: nat): bv32
    decreases n
  {
    if n == 0 then h else RotateLeft((h << 1) | (h >> 31), n - 1)
  }

  /** `rol5`: the bit pattern of `h1` rotated left by five places. */
  function Rol5(h1: bv32): bv32
  {
    RotateLeft(h1, 5)
  }

  /** `rol5` is the source's two-shift expression
      `((uint)h1 << 5) | ((uint)h1 >> 27)`, and it is Dafny's built-in
      rotation, which a rotation right by five undoes. */
  lemma Rol5IsShiftPair(h1: bv32)
    ensures Rol5(h1) == (h1 << 5) | (h1 >> 27)
    ensures Rol5(h1) == h1.RotateLeft(5)
    ensures Rol5(h1).RotateRight(5) == h1
  {
  }

  /** Combines two hash codes: `((int)rol5 + h1) ^ h2`. */
  function Combine(h1: bv32, h2: bv32): (r: bv32)
    // xor-ing h2 back out leaves the wrapped sum of the rotation and h1
    ensures r ^ h2 == Rol5(h1) + h1
  {
    (Rol5(h1) + h1) ^ h2
  }

  /** Combines three hash codes, combining the first two first. */
  function Combine3(h1: bv32, h2: bv32, h3: bv32): bv32
  {
    Combine(Combine(h1, h2), h3)
  }

  /** Combines four hash codes by reassigning one local, left to right. */
  function Combine4(h1: bv32, h2: bv32, h3: bv32, h4: bv32): bv32
  {
    var hash := Combine(h1, h2);
    var hash := Combine(hash, h3);
    Combine(hash, h4)
  }

  /** The reference definition the combinators are measured against: a left
      fold of `Combine` over a non-empty list of hash codes. */
  function CombineAll(hs: seq<bv32>): bv32
    requires |hs| >= 1
    decreases |hs|
  {
    if |hs| == 1 then hs[0] else Combine(CombineAll(hs[..|hs| - 1]), hs[|hs| - 1])
  }

  /** Combining into a zero seed gives the second hash back: rotating and
      doubling zero is zero. */
  lemma CombineZeroSeed(h2: bv32)
    ensures Combine(0, h2) == h2
  {
  }

  /** For a fixed first hash, `Combine` is injective in the second: the
      xor with `h2` is the last step. */
  lemma CombineInjective(h1: bv32, a: bv32, b: bv32)
    ensures Combine(h1, a) == Combine(h1, b) <==> a == b
  {
  }

  /** The three- and four-argument forms are left folds of the two-argument
      one, each extending the previous. */
  lemma CombineFolds(h1: bv32, h2: bv32, h3: bv32, h4: bv32)
    ensures Combine3(h1, h2, h3) == CombineAll([h1, h2, h3])
    ensures Combine4(h1, h2, h3, h4) == CombineAll([h1, h2, h3, h4])
    ensures Combine4(h1, h2, h3, h4) == Combine(Combine3(h1, h2, h3), h4)
  {
    assert [h1, h2][..1] == [h1];
    assert CombineAll([h1, h2]) == Combine(h1, h2);
    assert [h1, h2, h3][..2] == [h1, h2];
    assert CombineAll([h1, h2, h3]) == Combine(Combine(h1, h2), h3);
    assert [h1, h2, h3, h4][..3] == [h1, h2, h3];
  }

  /** The last hash code of `Combine3` and `Combine4` is injective too. */
  lemma CombineLastInjective(h1: bv32, h2: bv32, h3: bv32, a: bv32, b: bv32)
    ensures Combine3(h1, h2, a) == Combine3(h1, h2, b) <==> a == b
    ensures Combine4(h1, h2, h3, a) == Combine4(h1, h2, h3, b) <==> a == b
  {
    CombineInjective(Combine(h1, h2), a, b);
    CombineInjective(Combine3(h1, h2, h3), a, b);
  }
}
