/** 32-bit unsigned words and the integers they stand for.

    The generators of both engines compute on 32-bit words, the boards on integers.
    `Nat` reads a word as an unsigned integer, `Word` truncates an integer to its low
    32 bits. Both are defined bit by bit, so that no proof needs the solver's own
    conversion between words and integers, and the operations on words are wrapped in
    functions so that a proof can leave them folded. */
module Words {
  const MODULUS: int := 0x1_0000_0000

  function Plus(x: bv32, y: bv32): bv32 { x + y }

  function Times(x: bv32, y: bv32): bv32 { x * y }

  function Xor(x: bv32, y: bv32): bv32 { x ^ y }

  function Or(x: bv32, y: bv32): bv32 { x | y }

  function Shr(x: bv32, k: bv5): bv32 { x >> k }

  function Half(b: bv32): bv32 { b >> 1 }

  /** The low bit, as a number. */
  function Bit(b: bv32): nat { if b & 1 == 1 then 1 else 0 }

  /** The low 32 bits of a natural number. */
  function Word(k: nat): bv32 {
    if k == 0 then 0 else Plus(Word(k - 1), 1)
  }

  /** The low 32 bits of an integer, in two's complement. */
  function IntWord(x: int): bv32 {
    Word(x % MODULUS)
  }

  /** The value of the low `n` bits of a word. */
  function NatBits(b: bv32, n: nat): nat
    decreases n
  {
    if n == 0 then 0 else Bit(b) + 2 * NatBits(Half(b), n - 1)
  }

  /** The unsigned value of a word. */
  function Nat(b: bv32): nat {
    NatBits(b, 32)
  }

  function Pow2(n: nat): nat {
    if n == 0 then 1 else 2 * Pow2(n - 1)
  }

  /** The bits of `b` from position `n` upwards are zero. */
  ghost predicate Fits(b: bv32, n: nat)
    decreases n
  {
    if n == 0 then b == 0 else Fits(Half(b), n - 1)
  }

  // ---- facts about words alone ----

  lemma PlusLaws(x: bv32, y: bv32, z: bv32)
    ensures Plus(Plus(x, y), z) == Plus(x, Plus(y, z))
    ensures Plus(x, y) == Plus(y, x) && Plus(x, 0) == x
  {}

  lemma HalfLaws(b: bv32)
    ensures Bit(b) == 1 ==> Plus(Plus(Half(b), Half(b)), 1) == b
    ensures Bit(b) == 0 ==> Plus(Half(b), Half(b)) == b
    ensures Half(0) == 0 && Bit(0) == 0
    ensures Bit(b) == 0 || Bit(b) == 1
  {}

  lemma DoubleLaws(w: bv32)
    requires w < 0x8000_0000
    ensures Half(Plus(w, w)) == w && Bit(Plus(w, w)) == 0
    ensures Half(Plus(Plus(w, w), 1)) == w && Bit(Plus(Plus(w, w), 1)) == 1
  {}

  // ---- truncation is a ring homomorphism ----

  lemma {:induction false} WordAdd(a: nat, b: nat)
    ensures Word(a + b) == Plus(Word(a), Word(b))
    decreases b
  {
    hide Plus;
    if b > 0 {
      WordAdd(a, b - 1);
      PlusLaws(Word(a), Word(b - 1), 1);
    } else {
      PlusLaws(Word(a), 0, 0);
    }
  }

  lemma WordDouble(m: nat)
    ensures Word(2 * m) == Plus(Word(m), Word(m))
    ensures Word(2 * m + 1) == Plus(Plus(Word(m), Word(m)), 1)
  {
    hide Plus;
    WordAdd(m, m);
    assert m + m == 2 * m;
  }

  // ---- reading a word and truncating again ----

  lemma {:induction false} FitsUpTo(b: bv32, n: nat, m: nat)
    requires Fits(b, n) && n <= m
    ensures Fits(b, m)
    decreases m
  {
    hide Half;
    if n == 0 {
      if m > 0 {
        HalfLaws(0);
        FitsUpTo(b, 0, m - 1);
      }
    } else {
      FitsUpTo(Half(b), n - 1, m - 1);
    }
  }

  function Drop2(b: bv32): bv32 { b >> 2 }

  function Drop8(b: bv32): bv32 { b >> 8 }

  lemma DropLaws(b: bv32)
    ensures Half(Half(b)) == Drop2(b)
    ensures Drop2(Drop2(Drop2(Drop2(b)))) == Drop8(b)
    ensures Drop8(Drop8(Drop8(Drop8(b)))) == 0
  {}

  lemma TopLaw(b: bv32)
    requires Half(Drop2(Drop2(Drop2(Drop8(Drop8(Drop8(b))))))) == 0
    ensures b < 0x8000_0000
  {}

  lemma FitsTwo(b: bv32, n: nat)
    ensures Fits(b, n + 2) == Fits(Drop2(b), n)
  {
    hide Half, Drop2, Drop8;
    DropLaws(b);
    assert Fits(b, n + 2) == Fits(Half(b), n + 1);
  }

  lemma FitsEight(b: bv32, n: nat)
    ensures Fits(b, n + 8) == Fits(Drop8(b), n)
  {
    hide Fits, Half, Drop2, Drop8;
    FitsTwo(b, n + 6);
    FitsTwo(Drop2(b), n + 4);
    FitsTwo(Drop2(Drop2(b)), n + 2);
    FitsTwo(Drop2(Drop2(Drop2(b))), n);
    DropLaws(b);
  }

  lemma FitsAll(b: bv32)
    ensures Fits(b, 32)
  {
    hide Half, Drop2, Drop8;
    FitsEight(b, 24);
    FitsEight(Drop8(b), 16);
    FitsEight(Drop8(Drop8(b)), 8);
    FitsEight(Drop8(Drop8(Drop8(b))), 0);
    DropLaws(b);
  }

  lemma FitsTop(b: bv32)
    requires Fits(b, 31)
    ensures b < 0x8000_0000
  {
    hide Half, Drop2, Drop8;
    FitsEight(b, 23);
    FitsEight(Drop8(b), 15);
    FitsEight(Drop8(Drop8(b)), 7);
    var c := Drop8(Drop8(Drop8(b)));
    FitsTwo(c, 5);
    FitsTwo(Drop2(c), 3);
    FitsTwo(Drop2(Drop2(c)), 1);
    assert Fits(Half(Drop2(Drop2(Drop2(c)))), 0);
    TopLaw(b);
  }

  lemma {:induction false} WordNatBits(b: bv32, n: nat)
    requires Fits(b, n)
    ensures Word(NatBits(b, n)) == b
    decreases n
  {
    hide Plus, Half, Bit;
    if n > 0 {
      WordNatBits(Half(b), n - 1);
      WordDouble(NatBits(Half(b), n - 1));
      HalfLaws(b);
    }
  }

  lemma {:induction false} NatBitsWord(k: nat, n: nat)
    requires k < Pow2(n) && n <= 32
    ensures Fits(Word(k), n) && NatBits(Word(k), n) == k
    decreases n
  {
    hide Plus, Half, Bit;
    if n > 0 {
      var m := k / 2;
      NatBitsWord(m, n - 1);
      FitsUpTo(Word(m), n - 1, 31);
      FitsTop(Word(m));
      DoubleLaws(Word(m));
      WordDouble(m);
      assert k == 2 * m || k == 2 * m + 1;
    }
  }

  lemma {:induction false} NatBitsBound(b: bv32, n: nat)
    ensures NatBits(b, n) < Pow2(n)
    decreases n
  {
    hide Half, Bit;
    if n > 0 {
      NatBitsBound(Half(b), n - 1);
      HalfLaws(b);
    }
  }

  lemma Pow2Is(n: nat)
    ensures Pow2(n + 8) == 256 * Pow2(n)
  {
    assert Pow2(n + 4) == 16 * Pow2(n) by { assert Pow2(n + 2) == 4 * Pow2(n); }
    assert Pow2(n + 6) == 4 * Pow2(n + 4);
  }

  lemma Pow2Modulus()
    ensures Pow2(32) == MODULUS
  {
    Pow2Is(0);
    Pow2Is(8);
    Pow2Is(16);
    Pow2Is(24);
  }

  /** Reading a word as an integer and truncating again gives the word back. */
  lemma WordNat(b: bv32)
    ensures Word(Nat(b)) == b && Nat(b) < MODULUS
  {
    hide NatBits, Pow2, Fits, Word;
    FitsAll(b);
    WordNatBits(b, 32);
    NatBitsBound(b, 32);
    Pow2Modulus();
  }

  lemma NatWordSmall(k: nat)
    requires k < MODULUS
    ensures Nat(Word(k)) == k
  {
    hide NatBits, Pow2, Fits, Word;
    Pow2Modulus();
    NatBitsWord(k, 32);
  }

  lemma WordModulus()
    ensures Word(MODULUS) == 0
  {
    hide Nat, Plus, Word;
    var k := Nat(0xFFFF_FFFF);
    WordNat(0xFFFF_FFFF);
    WordSucc(k);
    Overflow();
    NatWordSmall(0);
    WordSucc(0);
    if k + 1 < MODULUS {
      NatWordSmall(k + 1);
    }
  }

  lemma WordSucc(k: nat)
    ensures Word(k + 1) == Plus(Word(k), 1) && Word(0) == 0
  {}

  lemma Overflow()
    ensures Plus(0xFFFF_FFFF, 1) == 0
  {}

  /** Truncation forgets exactly the multiples of 2^32. */
  lemma {:induction false} WordMod(k: nat)
    ensures Word(k) == Word(k % MODULUS)
  {
    hide Plus, Word;
    if k >= MODULUS {
      WordModulus();
      WordAdd(k - MODULUS, MODULUS);
      PlusLaws(Word(k - MODULUS), 0, 0);
      WordMod(k - MODULUS);
    }
  }

  /** Truncation is reduction modulo 2^32. */
  lemma NatWord(k: nat)
    ensures Nat(Word(k)) == k % MODULUS
  {
    hide Nat, Word;
    WordMod(k);
    NatWordSmall(k % MODULUS);
  }

  lemma IntWordNat(b: bv32)
    ensures IntWord(Nat(b)) == b && IntWord(Nat(b) - MODULUS) == b
  {
    hide Nat, Word;
    WordNat(b);
  }

  lemma IntWordAdd(x: int, y: int)
    ensures IntWord(x + y) == Plus(IntWord(x), IntWord(y))
  {
    hide Word, Plus;
    WordAdd(x % MODULUS, y % MODULUS);
    WordMod(x % MODULUS + y % MODULUS);
    assert (x % MODULUS + y % MODULUS) % MODULUS == (x + y) % MODULUS;
  }
}
