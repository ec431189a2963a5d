/** The native engine's seeded xorshift32 generator (RNG in InventoryModule.kt). */
module NativeRng {
  import opened Arith

  const TwoTo32: int := 0x1_0000_0000

  /** The state used for a seed: zero would make xorshift stick at zero, so it is replaced. */
  function InitialState(seed: bv32): (s: bv32)
    ensures s != 0
    ensures seed != 0 ==> s == seed
  {
    if seed == 0 then 0x9E37_79B9 else seed
  }

  /** One xorshift32 step: shift left 13, logical shift right 17, shift left 5. */
  function Xorshift(x: bv32): bv32 {
    var a := x ^ (x << 13);
    var b := a ^ (a >> 17);
    b ^ (b << 5)
  }

  /** Xorshift maps only zero to zero, so a non-zero state stays non-zero forever. */
  lemma XorshiftNonZero(x: bv32)
    requires x != 0
    ensures Xorshift(x) != 0
  {
    var a := x ^ (x << 13);
    assert a != 0;
    var b := a ^ (a >> 17);
    assert b != 0;
  }

  /**
   * int(lo, hi) for lo < hi with the fresh unsigned state u: the double
   * u / 2^32 * (hi - lo + 1) truncated, added to lo, then coerced into [lo, hi].
   */
  function Draw(lo: int, hi: int, u: bv32): int
    requires lo < hi
  {
    Min(hi, Max(lo, lo + (u as int * (hi - lo + 1)) / TwoTo32))
  }

  lemma ScaledBelowWidth(u: nat, w: nat)
    requires u < TwoTo32 && w >= 1
    ensures 0 <= (u * w) / TwoTo32 < w
  {
    assert u * w < TwoTo32 * w;
  }

  /** The coercion never has to act: the raw draw already lies in [lo, hi]. */
  lemma DrawIsUnclamped(lo: int, hi: int, u: bv32)
    requires lo < hi
    ensures Draw(lo, hi, u) == lo + (u as int * (hi - lo + 1)) / TwoTo32
    ensures lo <= Draw(lo, hi, u) <= hi
  {
    ScaledBelowWidth(u as int, hi - lo + 1);
  }

  /** int(lo, hi) from state s: the value drawn and the state after it. */
  function IntFrom(lo: int, hi: int, s: bv32): (r: (int, bv32))
    ensures lo >= hi ==> r == (lo, s)
    ensures lo < hi ==> r.1 == Xorshift(s) && lo <= r.0 <= hi
  {
    if lo >= hi then (lo, s)
    else
      DrawIsUnclamped(lo, hi, Xorshift(s));
      (Draw(lo, hi, Xorshift(s)), Xorshift(s))
  }

  class Rng {
    var state: bv32

    ghost predicate Valid()
      reads this
    {
      state != 0
    }

    constructor(seed: bv32)
      ensures Valid() && state == InitialState(seed)
    {
      state := InitialState(seed);
    }

    /** float(): advance the state and return it as the unsigned numerator of u / 2^32. */
    method Float() returns (u: bv32)
      requires Valid()
      modifies this
      ensures Valid() && state == Xorshift(old(state)) && u == state
    {
      XorshiftNonZero(state);
      state := Xorshift(state);
      u := state;
    }

    /** int(lo, hi): lo without a draw when lo >= hi, otherwise one draw scaled into [lo, hi]. */
    method Int(lo: int, hi: int) returns (r: int)
      requires Valid()
      modifies this
      ensures Valid()
      ensures lo >= hi ==> r == lo && state == old(state)
      ensures lo < hi ==> state == Xorshift(old(state)) && r == Draw(lo, hi, state)
      ensures lo < hi ==> lo <= r <= hi
      ensures (r, state) == IntFrom(lo, hi, old(state))
    {
      if lo >= hi {
        return lo;
      }
      var u := Float();
      r := Draw(lo, hi, u);
      DrawIsUnclamped(lo, hi, u);
    }

    /** pick(indices): an index of a non-empty list of n elements. */
    method Pick(n: int) returns (i: int)
      requires Valid() && n >= 1
      modifies this
      ensures Valid() && 0 <= i < n
      ensures n == 1 ==> i == 0 && state == old(state)
      ensures n > 1 ==> state == Xorshift(old(state)) && i == Draw(0, n - 1, state)
    {
      i := Int(0, n - 1);
    }
  }
}
