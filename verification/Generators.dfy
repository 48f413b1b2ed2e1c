/** The random generator that a simulator borrows (rng.go, rng.ts). Both engines make the
    same 32-bit outputs from the same seed; what differs is the arithmetic that makes them
    and the reduction of an output below a bound. One class stands for both, told apart by
    its engine. */
module Generators {
  import opened Words
  import opened Rng
  import opened JsRng

  datatype Engine = Server | Browser

  /** A stream of draws: whose arithmetic reads it, and where it starts. */
  datatype Source = Source(engine: Engine, seed: bv32)

  /** What an output is divided by for a draw below `n`: `uint32(n)` truncates the bound to
      32 bits, a Number keeps it. */
  function BoundOf(engine: Engine, n: int): int {
    if engine == Server then n % MODULUS else n
  }

  class Generator {
    const engine: Engine
    /** The 32-bit string of the state, an unsigned word or a Number. */
    var state: bv32
    ghost const seed: bv32
    ghost var drawn: nat

    ghost predicate Valid()
      reads this
    {
      state == StateAfter(seed, drawn)
    }

    /** The whole stream this generator walks along. */
    ghost function Stream(): Draws {
      Outputs(seed)
    }

    ghost function From(): Source {
      Source(engine, seed)
    }

    constructor (engine: Engine, seed: bv32)
      ensures Valid() && this.engine == engine && this.seed == seed && drawn == 0
    {
      this.engine, state, this.seed, drawn := engine, seed, seed, 0;
    }

    /** Next of rng.go, on unsigned words. */
    method Next() returns (v: nat)
      requires Valid()
      modifies this
      ensures Valid() && drawn == old(drawn) + 1
      ensures v == Stream()(old(drawn))
    {
      hide Plus, Nat, Word, Spread, Stir, Finish;
      state := Plus(state, STEP);
      drawn := drawn + 1;
      var t := state;
      t := Spread(t);
      t := Stir(t);
      v := Nat(Finish(t));
    }

    /** next of rng.ts, on Numbers. */
    method JsNext() returns (v: nat)
      requires Valid()
      modifies this
      ensures Valid() && drawn == old(drawn) + 1
      ensures v == Stream()(old(drawn))
    {
      hide JsSpread, JsStir, JsFinish, ToUint32, Nat, Plus, Word, IntWord, Spread, Stir, Finish;
      NextAgrees(state);
      IntWordNat(Plus(state, STEP));
      NextAgrees(Plus(state, STEP));
      var s := ToUint32(Nat(state) + 0x6D2B79F5);
      state := IntWord(s);
      drawn := drawn + 1;
      var t := s;
      t := JsSpread(t);
      t := JsStir(t);
      v := JsFinish(t);
    }

    /** A draw below `n`, on either engine. A bound of zero after truncation divides by
        zero, and `n <= 0` is refused; both stop the program. */
    method NextInt(n: int) returns (r: int)
      requires Valid()
      requires n > 0 && BoundOf(engine, n) > 0
      modifies this
      ensures Valid() && drawn == old(drawn) + 1
      ensures r == Below(Stream()(old(drawn)), BoundOf(engine, n))
    {
      hide Nat, Outputs, Below;
      if engine == Server {
        var v := Next();
        r := Below(v, n % MODULUS);
      } else {
        var v := JsNext();
        r := Below(v, n);
      }
    }
  }
}
