/**
 * The seeded 32-bit generator `createRng` (a mulberry32 variant), shared by the
 * neighbourhood generator and the galaxy particle layers.
 *
 * The JavaScript closure keeps one mutable number `t`. After the first `t |= 0`
 * it always holds a signed 32-bit integer; here it is kept as its unsigned
 * residue modulo 2^32 (the same bit pattern). Each call adds the golden
 * increment with 32-bit wrap-around and then mixes the new state with xor,
 * logical shifts and wrapping multiplications (`Math.imul`), which are exactly
 * the `bv32` operators.
 */
module Mulberry32 {

  const Modulus: int := 0x1_0000_0000
  const Increment: int := 0x6d2b79f5

  /** The unsigned reading of a 32-bit word. */
  type u32 = x: int | 0 <= x < 0x1_0000_0000

  /**
   * The state right after the first `t |= 0`: the closure starts from
   * `seed + 0x6d2b79f5`, and ToInt32 reduces that modulo 2^32.
   */
  function Seeded(seed: int): u32
  {
    (seed + Increment) % Modulus
  }

  /** The state after `k` calls of the generator. */
  function StateAfter(seed: int, k: nat): u32
  {
    if k == 0 then Seeded(seed) else (StateAfter(seed, k - 1) + Increment) % Modulus
  }

  /**
   * The mixing half of one call: `r = imul(t ^ t >>> 15, 1 | t)`, then
   * `r ^= r + imul(r ^ r >>> 7, 61 | r)`, then `r ^ r >>> 14`. The sum in the
   * middle is a floating-point add of two 32-bit integers, which the `^=`
   * truncates back to 32 bits, so it is a wrapping 32-bit add.
   */
  function Mix(s: bv32): bv32
  {
    var r := (s ^ (s >> 15)) * (1 | s);
    var r' := r ^ (r + (r ^ (r >> 7)) * (61 | r));
    r' ^ (r' >> 14)
  }

  /**
   * The value one call returns once the state has been advanced to `t`:
   * the mixed word read as an unsigned integer (`>>> 0`) and divided by 2^32.
   */
  function Output(t: u32): (u: real)
    ensures 0.0 <= u < 1.0
  {
    (Mix(t as bv32) as int) as real / 4294967296.0
  }

  /** The value returned by call number `k` (counting from 0) of a generator seeded with `seed`. */
  function Draw(seed: int, k: nat): (u: real)
    ensures 0.0 <= u < 1.0
  {
    Deferred(seed, k, 1)
  }

  /**
   * `Deferred(seed, k, 0)` is the output for the state after call `k`; each
   * further level only defers it. Callers see `Draw` one level up, so the
   * state arithmetic and the 32-bit mixing stay folded unless a proof asks
   * for them, and reasoning about many draws never has to wade through them.
   * The recursion on `levels` is a folding device, not an induction: it computes nothing beyond level 0.
   */
  function Deferred(seed: int, k: nat, levels: nat): (u: real)
    ensures 0.0 <= u < 1.0
  {
    if levels == 0 then Output(StateAfter(seed, k + 1)) else Deferred(seed, k, levels - 1)
  }

  /** All values in [0, 1), as every value the generator returns is. */
  predicate UnitDraws(u: seq<real>)
  {
    forall i :: 0 <= i < |u| ==> 0.0 <= u[i] < 1.0
  }

  /** The `n` values returned by calls `k`, ..., `k + n - 1`. */
  function Draws(seed: int, k: nat, n: nat): (u: seq<real>)
    ensures |u| == n && UnitDraws(u)
  {
    if n == 0 then [] else Draws(seed, k, n - 1) + [Draw(seed, k + n - 1)]
  }

  /** Element `i` of `Draws(seed, k, n)` is the value of call `k + i`. */
  lemma {:induction false} DrawsIndex(seed: int, k: nat, n: nat)
    ensures forall i :: 0 <= i < n ==> Draws(seed, k, n)[i] == Draw(seed, k + i)
  {
    if n > 0 {
      DrawsIndex(seed, k, n - 1);
      assert forall i :: 0 <= i < n - 1 ==> Draws(seed, k, n)[i] == Draws(seed, k, n - 1)[i];
    }
  }

  /** Any list holding the values of calls `k`, `k + 1`, ... in order is the list `Draws` describes. */
  lemma DrawsOfList(seed: int, k: nat, u: seq<real>)
    requires forall i :: 0 <= i < |u| ==> u[i] == Draw(seed, k + i)
    ensures u == Draws(seed, k, |u|)
  {
    DrawsIndex(seed, k, |u|);
    var d := Draws(seed, k, |u|);
    assert forall i :: 0 <= i < |u| ==> u[i] == d[i];
  }

  /**
   * Closed form of the state: after `k` calls it is
   * `seed + (k + 1) * 0x6d2b79f5` modulo 2^32.
   */
  lemma {:induction false} StateClosedForm(seed: int, k: nat)
    ensures StateAfter(seed, k) == (seed + (k + 1) * Increment) % Modulus
  {
    if k > 0 {
      StateClosedForm(seed, k - 1);
      var a := seed + k * Increment;
      assert (a % Modulus + Increment) % Modulus == (a + Increment) % Modulus;
    }
  }

  /**
   * Two seeds that differ by one give state streams that differ by one at
   * every step (modulo 2^32), so they never share a state at the same call.
   */
  lemma NextSeedShiftsStream(seed: int, k: nat)
    ensures StateAfter(seed + 1, k) == (StateAfter(seed, k) + 1) % Modulus
    ensures StateAfter(seed + 1, k) != StateAfter(seed, k)
  {
    StateClosedForm(seed, k);
    StateClosedForm(seed + 1, k);
    WrapSuccessor(seed + (k + 1) * Increment);
  }

  /**
   * Because the first `t |= 0` reduces the starting value modulo 2^32, seeds
   * that agree modulo 2^32 give the same states and the same values at every
   * call.
   */
  lemma SeedsAgreeModulo(seed: int, k: nat)
    ensures StateAfter(seed + Modulus, k) == StateAfter(seed, k)
    ensures Draw(seed + Modulus, k) == Draw(seed, k)
  {
    SameState(seed, k);
    SameState(seed, k + 1);
    assert Draw(seed, k) == Deferred(seed, k, 0);
    assert Draw(seed + Modulus, k) == Deferred(seed + Modulus, k, 0);
  }

  /** The state half of `SeedsAgreeModulo`, from the closed form. */
  lemma SameState(seed: int, k: nat)
    ensures StateAfter(seed + Modulus, k) == StateAfter(seed, k)
  {
    StateClosedForm(seed, k);
    StateClosedForm(seed + Modulus, k);
    var a := seed + (k + 1) * Increment;
    assert seed + Modulus + (k + 1) * Increment == a + Modulus;
    assert (a + Modulus) % Modulus == a % Modulus;
  }

  /** Adding one commutes with reduction modulo 2^32, and always changes the residue. */
  lemma WrapSuccessor(a: int)
    ensures (a + 1) % Modulus == (a % Modulus + 1) % Modulus
    ensures (a + 1) % Modulus != a % Modulus
  {
  }

  /**
   * The closure returned by `createRng`: the mutable state `t`, plus the
   * seed it was created with and the number of calls made so far, which
   * exist only for the specification.
   */
  class Rng {
    var t: u32
    ghost const seed: int
    ghost var draws: nat

    ghost predicate Valid()
      reads this
    {
      t == StateAfter(seed, draws)
    }

    /** `createRng(seed)`. */
    constructor (seed: int)
      ensures Valid() && this.seed == seed && draws == 0
    {
      this.seed := seed;
      t := (seed + Increment) % Modulus;
      draws := 0;
    }

    /** One call of the closure: advance the state, then mix it. */
    method Next() returns (u: real)
      requires Valid()
      modifies this
      ensures Valid() && draws == old(draws) + 1
      ensures u == Draw(seed, old(draws))
      ensures 0.0 <= u < 1.0
    {
      t := (t + Increment) % Modulus;
      u := Output(t);
      assert u == Deferred(seed, draws, 0);
      draws := draws + 1;
    }
  }
}
