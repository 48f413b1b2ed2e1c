/** The mulberry32 generator on 32-bit words and the sequence of draws it stands for
    (rng.go). */
module Rng {
  import opened Words

  const STEP: bv32 := Word(0x6D2B79F5)

  /** Draw number `i` of a stream, as an unsigned integer. */
  type Draws = nat -> nat

  function Spread(t: bv32): bv32 {
    Times(Xor(t, Shr(t, 15)), Or(1, t))
  }

  function Stir(t: bv32): bv32 {
    Xor(Plus(t, Times(Xor(t, Shr(t, 7)), Or(61, t))), t)
  }

  function Finish(t: bv32): bv32 {
    Xor(t, Shr(t, 14))
  }

  /** One mulberry32 output from an already advanced state. */
  function Mix(s: bv32): bv32 {
    Finish(Stir(Spread(s)))
  }

  /** The state after `k` steps. */
  function StateAfter(seed: bv32, k: nat): bv32 {
    if k == 0 then seed else Plus(StateAfter(seed, k - 1), STEP)
  }

  /** All draws of the stream that starts at `seed`. */
  function Outputs(seed: bv32): Draws {
    (i: nat) => Nat(Mix(StateAfter(seed, i + 1)))
  }

  /** An output reduced below `n`. */
  function Below(v: nat, n: int): (r: int)
    requires n > 0
    ensures 0 <= r < n
  {
    v % n
  }

  // ---- the state is seed + draws * STEP modulo 2^32, and does not repeat early ----

  lemma {:induction false} StateIs(seed: bv32, k: nat)
    ensures StateAfter(seed, k) == Word(Nat(seed) + k * 0x6D2B79F5)
  {
    hide Nat, Plus, Word;
    if k == 0 {
      WordNat(seed);
    } else {
      StateIs(seed, k - 1);
      WordAdd(Nat(seed) + (k - 1) * 0x6D2B79F5, 0x6D2B79F5);
    }
  }

  /** RNG-stream accounting: the state is the seed plus the number of draws times the
      step, modulo 2^32. */
  lemma StateCountsDraws(seed: bv32, k: nat)
    ensures Nat(StateAfter(seed, k)) == (Nat(seed) + k * 0x6D2B79F5) % MODULUS
  {
    hide Nat, Word, StateAfter;
    StateIs(seed, k);
    NatWord(Nat(seed) + k * 0x6D2B79F5);
  }

  /** The inverse of the step modulo 2^32: the only number of steps that adds 1. */
  const STEPS_TO_ONE: nat := 0xDC58AA5D

  lemma StepInverse(d: int, q: int)
    requires d * 0x6D2B79F5 == q * MODULUS
    ensures d % MODULUS == 0
  {
    assert 0x6D2B79F5 * STEPS_TO_ONE == 1 + MODULUS * 1576479847;
    assert d * (0x6D2B79F5 * STEPS_TO_ONE) == (q * STEPS_TO_ONE) * MODULUS;
    assert d == (q * STEPS_TO_ONE - d * 1576479847) * MODULUS;
  }

  /** The first 2^32 states of a stream are pairwise distinct. */
  lemma StatesAreDistinct(seed: bv32, i: nat, j: nat)
    requires i < j && StateAfter(seed, i) == StateAfter(seed, j)
    ensures j - i >= MODULUS
  {
    hide Nat, Word, StateAfter;
    StateCountsDraws(seed, i);
    StateCountsDraws(seed, j);
    var a, b := Nat(seed) + i * 0x6D2B79F5, Nat(seed) + j * 0x6D2B79F5;
    assert b - a == (j - i) * 0x6D2B79F5;
    assert b - a == (b / MODULUS - a / MODULUS) * MODULUS;
    StepInverse(j - i, b / MODULUS - a / MODULUS);
  }
}
