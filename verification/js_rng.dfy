/**
 * The JavaScript generator's mulberry32 generator (rnd, randInt and pick in
 * inventoryUtils.ts). The counter `s` is a JavaScript number that only ever
 * grows and that every bitwise operator reads modulo 2^32; the model keeps
 * exactly those low 32 bits.
 */
module JsRng {
  import opened NativeRng

  /** The constant added to the counter before every draw. */
  const Step: bv32 := 0x6D2B_79F5

  /** The counter a seed starts from: `seed >>> 0`, the seed modulo 2^32. */
  function StartCounter(seed: int): bv32 {
    (seed % TwoTo32) as bv32
  }

  /** Math.imul: the low 32 bits of the product, the sum of a shifted by every set bit of b. */
  function Imul(a: bv32, b: bv32): bv32 {
    ImulLow(a, b, 32)
  }

  /** a times the lowest k bits of b, modulo 2^32. */
  function ImulLow(a: bv32, b: bv32, k: nat): bv32
    requires k <= 32
  {
    if k == 0 then 0
    else ImulLow(a, b, k - 1) + (if (b >> (k - 1)) & 1 == 1 then a << (k - 1) else 0)
  }

  /** The mulberry32 output mix for the counter bits x, as an unsigned 32-bit value. */
  function Mix(x: bv32): bv32 {
    var t := Imul(x ^ (x >> 15), 1 | x);
    var t2 := t ^ (t + Imul(t ^ (t >> 7), 61 | t));
    t2 ^ (t2 >> 14)
  }

  /** The counter after k draws from c: each draw first adds Step. */
  function Skip(c: bv32, k: nat): bv32 {
    if k == 0 then c else Skip(c, k - 1) + Step
  }

  /** Skipping from one step later is skipping one more. */
  lemma {:induction false} SkipShift(c: bv32, k: nat)
    ensures Skip(c + Step, k) == Skip(c, k) + Step
  {
    if k > 0 {
      SkipShift(c, k - 1);
    }
  }

  /** A 32-bit unsigned value read as a number. */
  type Word = x: int | 0 <= x < TwoTo32

  /**
   * Draw k (counting from 0) after the counter c: the numerator u of rnd() = u / 2^32.
   * It is stated as a walk along the counter so that a draw is unfolded only on demand.
   */
  function Rnd(c: bv32, k: nat): Word
    decreases k
  {
    if k == 0 then Mix(c + Step) as int else Rnd(c + Step, k - 1)
  }

  /** Draw k mixes the counter after k + 1 steps. */
  lemma {:induction false} RndMixesSkip(c: bv32, k: nat)
    ensures Rnd(c, k) == Mix(Skip(c, k + 1)) as int
    decreases k
  {
    if k > 0 {
      RndMixesSkip(c + Step, k - 1);
      SkipShift(c, k);
    }
  }

  /** randInt(min, max) for the draw u: Math.floor(u / 2^32 * (max - min + 1)) + min. */
  function RandIntOf(min: int, max: int, u: Word): int {
    (u * (max - min + 1)) / TwoTo32 + min
  }

  /** For min <= max the draw lands in [min, max]. */
  lemma RandIntInRange(min: int, max: int, u: Word)
    requires min <= max
    ensures min <= RandIntOf(min, max, u) <= max
  {
    ScaledBelowWidth(u, max - min + 1);
  }

  /** pick over n elements: Math.floor(u / 2^32 * n). */
  function PickOf(n: int, u: Word): int {
    (u * n) / TwoTo32
  }

  /** A pick over a non-empty array is an index of it. */
  lemma PickInRange(n: int, u: Word)
    requires n >= 1
    ensures 0 <= PickOf(n, u) < n
  {
    ScaledBelowWidth(u, n);
  }

  /** rnd() * 2 - 1, the signed unit draw the price jitter scales. */
  function Signed(u: Word): real {
    (u as real / 4294967296.0) * 2.0 - 1.0
  }

  lemma SignedBounds(u: Word)
    ensures -1.0 <= Signed(u) < 1.0
  {
    var f := u as real / 4294967296.0;
    assert 0.0 <= f < 1.0;
  }

  /**
   * The closure state of rnd: the counter s. The ghost fields record the counter
   * the generator started from and how many draws it has made since.
   */
  class Mulberry {
    var s: bv32
    ghost var start: bv32
    ghost var draws: nat

    ghost predicate Valid()
      reads this
    {
      s == Skip(start, draws)
    }

    constructor(seed: int)
      ensures Valid() && start == StartCounter(seed) && draws == 0
    {
      s := StartCounter(seed);
      start := s;
      draws := 0;
    }

    /** rnd(): advance the counter by Step and mix it; this is draw number `draws`. */
    method Next() returns (u: Word)
      requires Valid()
      modifies this
      ensures Valid() && start == old(start) && draws == old(draws) + 1
      ensures u == Rnd(start, old(draws))
    {
      s := s + Step;
      draws := draws + 1;
      u := Mix(s) as int;
      RndMixesSkip(start, old(draws));
    }

    /** randInt(min, max): one draw, scaled and floored into [min, max] when min <= max. */
    method RandInt(min: int, max: int) returns (r: int)
      requires Valid()
      modifies this
      ensures Valid() && start == old(start) && draws == old(draws) + 1
      ensures r == RandIntOf(min, max, Rnd(start, old(draws)))
      ensures min <= max ==> min <= r <= max
    {
      var u := Next();
      r := RandIntOf(min, max, u);
      if min <= max {
        RandIntInRange(min, max, u);
      }
    }

    /** pick(arr) for an array of n elements: one draw, an index of the array. */
    method Pick(n: int) returns (i: int)
      requires Valid() && n >= 1
      modifies this
      ensures Valid() && start == old(start) && draws == old(draws) + 1
      ensures i == PickOf(n, Rnd(start, old(draws)))
      ensures 0 <= i < n
    {
      var u := Next();
      i := PickOf(n, u);
      PickInRange(n, u);
    }
  }
}
