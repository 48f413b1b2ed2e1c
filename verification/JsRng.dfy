/** mulberry32 on JavaScript Numbers (rng.ts), and its agreement with the uint32
    generator of rng.go.

    A Number is an integer here (every value the generator meets is exact). The bitwise
    operators see the 32-bit string of their operands (ToInt32/ToUint32, ECMA-262 2023
    sections 7.1.6 and 7.1.7) and return a signed value; `>>>` returns an unsigned one;
    Math.imul (section 21.3.2.19) is the signed 32-bit product; `+` is exact. */
module JsRng {
  import opened Words
  import opened Rng

  /** The signed reading of a 32-bit string. */
  function Signed(b: bv32): int {
    if Nat(b) >= 0x8000_0000 then Nat(b) - MODULUS else Nat(b)
  }

  /** `x >>> 0` */
  function ToUint32(x: int): int { Nat(IntWord(x)) }

  function BitXor(x: int, y: int): int { Signed(Xor(IntWord(x), IntWord(y))) }

  function BitOr(x: int, y: int): int { Signed(Or(IntWord(x), IntWord(y))) }

  function Imul(x: int, y: int): int { Signed(Times(IntWord(x), IntWord(y))) }

  /** `x >>> k` */
  function ShiftRight(x: int, k: bv5): int { Nat(Shr(IntWord(x), k)) }

  function JsSpread(t: int): int {
    ToUint32(Imul(BitXor(t, ShiftRight(t, 15)), BitOr(1, t)))
  }

  function JsStir(t: int): int {
    ToUint32(BitXor(t + Imul(BitXor(t, ShiftRight(t, 7)), BitOr(61, t)), t))
  }

  function JsFinish(t: int): int {
    ToUint32(BitXor(t, ShiftRight(t, 14)))
  }

  /** `(s + 0x6d2b79f5) >>> 0` */
  function JsAdvance(s: int): int { ToUint32(s + 0x6D2B79F5) }

  /** The value returned from the advanced state `s`. */
  function JsMix(s: int): int { JsFinish(JsStir(JsSpread(s))) }

  /** The state after `k` calls of `next`. */
  function JsStateAfter(s: int, k: nat): int {
    if k == 0 then s else JsAdvance(JsStateAfter(s, k - 1))
  }

  // ---- every operator sees the same 32-bit string, whatever its sign ----

  lemma SignedWord(b: bv32)
    ensures IntWord(Signed(b)) == b && IntWord(Nat(b)) == b
  {
    hide IntWord, Nat;
    IntWordNat(b);
  }

  lemma SmallWords()
    ensures IntWord(1) == 1 && IntWord(61) == 61 && IntWord(0x6D2B79F5) == STEP
  {
    WordDouble(1);
    WordDouble(3);
    WordDouble(7);
    WordDouble(15);
    WordDouble(30);
  }

  lemma SpreadAgrees(w: bv32)
    ensures JsSpread(Nat(w)) == Nat(Spread(w))
  {
    hide IntWord, Nat, Signed, Xor, Or, Shr, Times;
    var c := Shr(w, 15);
    SmallWords();
    SignedWord(w);
    SignedWord(c);
    SignedWord(Xor(w, c));
    SignedWord(Or(1, w));
    SignedWord(Spread(w));
  }

  lemma StirAgrees(w: bv32)
    ensures JsStir(Nat(w)) == Nat(Stir(w))
  {
    hide IntWord, Nat, Signed, Xor, Or, Shr, Times, Plus;
    var c := Shr(w, 7);
    SmallWords();
    SignedWord(w);
    SignedWord(c);
    SignedWord(Xor(w, c));
    SignedWord(Or(61, w));
    var m := Times(Xor(w, c), Or(61, w));
    SignedWord(m);
    IntWordAdd(Nat(w), Signed(m));
    SignedWord(Stir(w));
  }

  lemma FinishAgrees(w: bv32)
    ensures JsFinish(Nat(w)) == Nat(Finish(w))
  {
    hide IntWord, Nat, Signed, Xor, Shr;
    SignedWord(w);
    SignedWord(Shr(w, 14));
    SignedWord(Finish(w));
  }

  /** For every state, `next` of rng.ts moves to the state and returns the value that
      `Next` of rng.go does. */
  lemma NextAgrees(w: bv32)
    ensures JsAdvance(Nat(w)) == Nat(Plus(w, STEP))
    ensures JsMix(Nat(w)) == Nat(Mix(w))
  {
    hide JsSpread, JsStir, JsFinish, Spread, Stir, Finish, Nat, IntWord, Plus, Word;
    SpreadAgrees(w);
    StirAgrees(Spread(w));
    FinishAgrees(Stir(Spread(w)));
    SignedWord(w);
    SmallWords();
    IntWordAdd(Nat(w), 0x6D2B79F5);
  }

  /** Both generators produce the same stream from the same 32-bit seed. */
  lemma {:induction false} StreamsAgree(seed: bv32, k: nat)
    ensures JsStateAfter(Nat(seed), k) == Nat(StateAfter(seed, k))
    ensures k > 0 ==> JsMix(JsStateAfter(Nat(seed), k)) == Outputs(seed)(k - 1)
  {
    hide JsMix, JsAdvance, Nat, Plus, Mix;
    NextAgrees(StateAfter(seed, k));
    if k > 0 {
      StreamsAgree(seed, k - 1);
      NextAgrees(StateAfter(seed, k - 1));
    }
  }

  /** `next() % n` against `int(Next() % uint32(n))`: the two reductions of a draw agree
      exactly when the bound fits in 32 bits or the draw is below the truncated bound. */
  lemma NextIntAgrees(v: nat, n: int)
    requires v < MODULUS && n > 0 && n % MODULUS != 0
    ensures Below(v, n) == Below(v, n % MODULUS) <==> n < MODULUS || v < n % MODULUS
  {
    var m := n % MODULUS;
    if n < MODULUS {
      assert m == n;
    } else {
      SmallRemainder(v, n);
      if v < m {
        SmallRemainder(v, m);
      }
    }
  }

  lemma SmallRemainder(v: nat, n: nat)
    requires v < n
    ensures v % n == v
  {}
}
