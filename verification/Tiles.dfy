/** Weighted tile draws (randomTile) and the passes that redraw marked cells in index
    order: filling a board, unlocking, reshuffling (engine.go). */
module Tiles {
  import opened Words
  import opened Rng
  import opened Generators
  import opened Config

  /** The weights of a vault, and what an engine divides an output by to draw from them. */
  datatype Deck = Deck(weights: Weights, bound: int)

  function DeckOf(engine: Engine, ws: Weights): Deck {
    Deck(ws, BoundOf(engine, ws.Total()))
  }

  /** A draw is possible. On the server a sum that is a multiple of 2^32 divides by zero. */
  ghost predicate Drawable(deck: Deck) {
    deck.weights.NonNegative() && deck.weights.Total() > 0 && deck.bound > 0
  }

  /** The first kind, counting from `t`, whose weight exceeds what is left of `r`. */
  function Walk(ws: seq<int>, r: int, t: nat): int
    requires t <= |ws|
    decreases |ws| - t
  {
    if t == |ws| then MONEY else if r < ws[t] then t else Walk(ws, r - ws[t], t + 1)
  }

  /** The tile that an output `v` stands for. */
  ghost function TileFor(v: nat, deck: Deck): (t: int)
    requires Drawable(deck)
    ensures 0 <= t < LOCK
  {
    var r := Below(v, deck.bound);
    WalkRange(deck.weights.Ordered(), r, 0);
    Walk(deck.weights.Ordered(), r, 0)
  }

  /** The tile at position `p` of a stream. */
  ghost function TileAt(d: Draws, p: nat, deck: Deck): (t: int)
    requires Drawable(deck)
    ensures 0 <= t < LOCK
  {
    TileFor(d(p), deck)
  }

  lemma {:induction false} WalkRange(ws: seq<int>, r: int, t: nat)
    requires t <= |ws|
    ensures t <= Walk(ws, r, t) < |ws| || Walk(ws, r, t) == MONEY
    decreases |ws| - t
  {
    if t < |ws| && r >= ws[t] { WalkRange(ws, r - ws[t], t + 1); }
  }

  method RandomTile(rng: Generator, ws: Weights) returns (t: int)
    requires rng.Valid() && Drawable(DeckOf(rng.engine, ws))
    modifies rng
    ensures rng.Valid() && rng.drawn == old(rng.drawn) + 1
    ensures t == TileAt(rng.Stream(), old(rng.drawn), DeckOf(rng.engine, ws))
  {
    hide Outputs, Below, Generator.Valid;
    var ordered := ws.Ordered();
    var r := rng.NextInt(ws.Total());
    ghost var r0 := r;
    for k := 0 to 6
      invariant Walk(ordered, r, k) == Walk(ordered, r0, 0)
    {
      if r < ordered[k] {
        return k;
      }
      r := r - ordered[k];
    }
    t := MONEY;
  }

  // ---- every kind gets exactly its weight ----

  function SumTo(ws: seq<int>, t: nat): int
    requires t <= |ws|
  {
    if t == 0 then 0 else SumTo(ws, t - 1) + ws[t - 1]
  }

  lemma {:induction false} WalkFrom(ws: seq<int>, r: int, k: nat, t: nat)
    requires k <= t < |ws| && (forall i :: 0 <= i < |ws| ==> ws[i] >= 0)
    requires SumTo(ws, k) <= r < SumTo(ws, |ws|)
    ensures Walk(ws, r - SumTo(ws, k), k) == t <==> SumTo(ws, t) <= r < SumTo(ws, t + 1)
    decreases |ws| - k
  {
    SumsGrow(ws, k + 1, t + 1);
    if r - SumTo(ws, k) < ws[k] {
      if k < t { SumsGrow(ws, k + 1, t); }
    } else {
      if k + 1 < |ws| {
        WalkRange(ws, r - SumTo(ws, k + 1), k + 1);
        if k < t {
          WalkFrom(ws, r, k + 1, t);
        } else {
          NotBefore(ws, r, k + 1, k);
        }
      }
    }
  }

  /** Inside the total the walk never falls off the end, so it returns a later kind. */
  lemma {:induction false} NotBefore(ws: seq<int>, r: int, k: nat, t: nat)
    requires t < k < |ws| && (forall i :: 0 <= i < |ws| ==> ws[i] >= 0)
    requires SumTo(ws, k) <= r < SumTo(ws, |ws|)
    ensures k <= Walk(ws, r - SumTo(ws, k), k) < |ws|
    decreases |ws| - k
  {
    if r - SumTo(ws, k) >= ws[k] && k + 1 < |ws| {
      NotBefore(ws, r, k + 1, t);
    }
  }

  lemma {:induction false} SumsGrow(ws: seq<int>, i: nat, j: nat)
    requires i <= j <= |ws| && (forall k :: 0 <= k < |ws| ==> ws[k] >= 0)
    ensures SumTo(ws, i) <= SumTo(ws, j)
    decreases j
  {
    if i < j { SumsGrow(ws, i, j - 1); }
  }

  ghost function Interval(a: int, n: nat): set<int> {
    if n == 0 then {} else Interval(a, n - 1) + {a + n - 1}
  }

  lemma {:induction false} IntervalFacts(a: int, n: nat)
    ensures |Interval(a, n)| == n
    ensures forall r :: r in Interval(a, n) <==> a <= r < a + n
  {
    if n > 0 { IntervalFacts(a, n - 1); }
  }

  lemma OrderedSum(ws: Weights)
    ensures SumTo(ws.Ordered(), 6) == ws.Total()
  {
    var o := ws.Ordered();
    assert SumTo(o, 1) == o[0];
    assert SumTo(o, 3) == SumTo(o, 1) + o[1] + o[2];
    assert SumTo(o, 5) == SumTo(o, 3) + o[3] + o[4];
  }

  lemma SmallBelow(r: nat, n: int)
    requires r < n
    ensures Below(r, n) == r
  {}

  /** The residues that stand for kind `t` lie next to each other. A truncated bound cuts
      off those of the last kinds. */
  ghost function Share(deck: Deck, t: nat): int
    requires t < 6
  {
    Cut(deck, t + 1) - Cut(deck, t)
  }

  ghost function Cut(deck: Deck, t: nat): int
    requires t <= 6
  {
    var sum := SumTo(deck.weights.Ordered(), t);
    if sum < deck.bound then sum else deck.bound
  }

  lemma KindOfResidue(deck: Deck, r: nat, t: nat)
    requires Drawable(deck) && deck.bound <= deck.weights.Total() && t < 6 && r < deck.bound
    ensures TileFor(r, deck) == t <==> Cut(deck, t) <= r < Cut(deck, t + 1)
  {
    hide Walk, Below;
    var o := deck.weights.Ordered();
    OrderedSum(deck.weights);
    SmallBelow(r, deck.bound);
    WalkFrom(o, r, 0, t);
  }

  /** Of the residues 0 .. bound-1 exactly `Share` stand for kind `t`, and nothing that can
      be drawn is a lock. */
  lemma ResiduesPerKind(deck: Deck, t: nat)
    requires Drawable(deck) && deck.bound <= deck.weights.Total() && t < 6
    ensures |set r | 0 <= r < deck.bound && TileFor(r, deck) == t| == Share(deck, t)
    ensures forall v: nat :: TileFor(v, deck) != LOCK
  {
    hide TileFor, Below;
    var o := deck.weights.Ordered();
    var a := Cut(deck, t);
    SumsGrow(o, 0, t);
    SumsGrow(o, t, t + 1);
    IntervalFacts(a, Share(deck, t));
    forall r | 0 <= r < deck.bound
      ensures TileFor(r, deck) == t <==> r in Interval(a, Share(deck, t))
    {
      KindOfResidue(deck, r, t);
    }
    assert (set r | 0 <= r < deck.bound && TileFor(r, deck) == t) == Interval(a, Share(deck, t));
  }

  /** The residues that an engine makes tiles of kind `t` of. */
  ghost function Residues(deck: Deck, t: int): set<int>
    requires Drawable(deck)
  {
    set r | 0 <= r < deck.bound && TileFor(r, deck) == t
  }

  /** On the server as many residues stand for each of the six kinds as its weight says
      exactly when the weights sum to less than 2^32. */
  lemma SharesAreWeights(ws: Weights)
    requires Drawable(DeckOf(Server, ws))
    ensures var deck := DeckOf(Server, ws);
      (&& |Residues(deck, KEY)| == ws.key && |Residues(deck, LASER)| == ws.laser
       && |Residues(deck, CAMERA)| == ws.camera && |Residues(deck, MONEY)| == ws.money
       && |Residues(deck, DIAMOND)| == ws.diamond && |Residues(deck, GUARD)| == ws.guard) <==> ws.Total() < MODULUS
  {
    hide TileFor, Share;
    var deck, o := DeckOf(Server, ws), ws.Ordered();
    forall t: nat | t < 6 ensures |Residues(deck, t)| == Share(deck, t) {
      ResiduesPerKind(deck, t);
    }
    OrderedShares(ws);
    assert o[KEY] == ws.key && o[LASER] == ws.laser && o[CAMERA] == ws.camera;
    assert o[MONEY] == ws.money && o[DIAMOND] == ws.diamond && o[GUARD] == ws.guard;
    if |Residues(deck, KEY)| == ws.key && |Residues(deck, LASER)| == ws.laser && |Residues(deck, CAMERA)| == ws.camera
       && |Residues(deck, MONEY)| == ws.money && |Residues(deck, DIAMOND)| == ws.diamond
       && |Residues(deck, GUARD)| == ws.guard
    {
      forall t: nat | t < 6 ensures Share(deck, t) == o[t] {}
    }
  }

  lemma OrderedShares(ws: Weights)
    requires Drawable(DeckOf(Server, ws))
    ensures (forall t: nat :: t < 6 ==> Share(DeckOf(Server, ws), t) == ws.Ordered()[t]) <==> ws.Total() < MODULUS
  {
    var deck, o := DeckOf(Server, ws), ws.Ordered();
    OrderedSum(ws);
    if ws.Total() < MODULUS {
      forall t: nat | t < 6 ensures Share(deck, t) == o[t] {
        SumsGrow(o, t, t + 1);
        SumsGrow(o, t + 1, 6);
      }
    } else {
      SomeShareIsCut(deck);
    }
  }

  lemma SomeShareIsCut(deck: Deck)
    requires Drawable(deck) && deck.bound < deck.weights.Total()
    ensures exists t: nat :: t < 6 && Share(deck, t) != deck.weights.Ordered()[t]
  {
    OrderedSum(deck.weights);
    var t := LastWhole(deck, 6);
  }

  /** The last kind before which nothing is cut off. */
  lemma {:induction false} LastWhole(deck: Deck, n: nat) returns (t: nat)
    requires n <= 6 && deck.bound > 0 && Cut(deck, n) != SumTo(deck.weights.Ordered(), n)
    ensures t < n && Share(deck, t) != deck.weights.Ordered()[t]
  {
    t := n - 1;
    if Cut(deck, t) != SumTo(deck.weights.Ordered(), t) {
      t := LastWhole(deck, t);
    }
  }

  // ---- the two engines ----

  /** The first kind that has a weight. */
  ghost predicate IsFirst(ws: seq<int>, k: nat) {
    k < |ws| && ws[k] > 0 && forall j :: 0 <= j < k ==> ws[j] == 0
  }

  lemma {:induction false} NothingBefore(ws: seq<int>, k: nat, n: nat)
    requires IsFirst(ws, k) && n <= k
    ensures SumTo(ws, n) == 0
  {
    if n > 0 { NothingBefore(ws, k, n - 1); }
  }

  /** What the first kind gets: the residues below its weight. */
  lemma FirstKindOf(deck: Deck, v: nat, k: nat)
    requires Drawable(deck) && deck.bound <= deck.weights.Total() && IsFirst(deck.weights.Ordered(), k)
    ensures TileFor(v, deck) == k <==> Below(v, deck.bound) < deck.weights.Ordered()[k]
  {
    hide Walk, Below;
    var o := deck.weights.Ordered();
    OrderedSum(deck.weights);
    NothingBefore(o, k, k);
    WalkFrom(o, Below(v, deck.bound), 0, k);
  }

  /** The two engines make the same tile of every 32-bit output exactly when the weights
      sum to less than 2^32, or the first kind alone has that much, so that both draw
      nothing else. */
  lemma EnginesAgree(ws: Weights, k: nat)
    requires Drawable(DeckOf(Server, ws)) && IsFirst(ws.Ordered(), k)
    ensures (forall v: nat :: v < MODULUS ==> TileFor(v, DeckOf(Server, ws)) == TileFor(v, DeckOf(Browser, ws)))
      <==> ws.Total() < MODULUS || ws.Ordered()[k] >= MODULUS
  {
    hide TileFor, Below;
    var first := ws.Ordered()[k];
    if ws.Total() < MODULUS {
      assert DeckOf(Server, ws) == DeckOf(Browser, ws);
    } else if first >= MODULUS {
      forall v: nat | v < MODULUS
        ensures TileFor(v, DeckOf(Server, ws)) == TileFor(v, DeckOf(Browser, ws))
      {
        EnginesOnFirst(ws, v, k);
      }
    } else {
      var v := if first >= ws.Total() % MODULUS then first else ws.Total() % MODULUS;
      EnginesOnFirst(ws, v, k);
    }
  }

  /** Above 2^32 the browser sees the output itself, the server its remainder. */
  lemma EnginesOnFirst(ws: Weights, v: nat, k: nat)
    requires Drawable(DeckOf(Server, ws)) && IsFirst(ws.Ordered(), k) && v < MODULUS <= ws.Total()
    ensures TileFor(v, DeckOf(Browser, ws)) == k <==> v < ws.Ordered()[k]
    ensures TileFor(v, DeckOf(Server, ws)) == k <==> v % (ws.Total() % MODULUS) < ws.Ordered()[k]
  {
    hide TileFor;
    FirstKindOf(DeckOf(Server, ws), v, k);
    FirstKindOf(DeckOf(Browser, ws), v, k);
    SmallBelow(v, ws.Total());
  }

  /** A configuration that passes validation may still have a vault whose weights stop
      the server on the first draw: exactly when they sum to a multiple of 2^32. */
  lemma ValidWeightsDraw(c: EventConfig, i: nat)
    requires Valid(c) && i < |c.vaults|
    ensures Drawable(DeckOf(Server, c.vaults[i].weights)) <==> c.vaults[i].weights.Total() % MODULUS != 0
    ensures Drawable(DeckOf(Browser, c.vaults[i].weights))
  {
    assert ValidVault(c.vaults[i], c.w * c.h);
  }

  lemma ValidConfigMayNotDraw()
    ensures exists c: EventConfig :: Valid(c) && |c.vaults| > 0 && !Drawable(DeckOf(Server, c.vaults[0].weights))
  {
    var v := Vault(12, Objectives(9, 0, 0), 0, Weights(0x8000_0000, 0, 0, 0x8000_0000, 0, 0));
    var c := EventConfig(1, 1.0, 1.0, 1, 7, 7, [1.0], 0.5, [v]);
    assert ValidVault(v, c.w * c.h);
    assert Valid(c);
  }

  // ---- redrawing marked cells in ascending order ----

  /** How many of the first `n` cells are marked. */
  ghost function Rank(marks: seq<bool>, n: nat): nat
    requires n <= |marks|
  {
    if n == 0 then 0 else Rank(marks, n - 1) + if marks[n - 1] then 1 else 0
  }

  ghost function Count(marks: seq<bool>): nat {
    Rank(marks, |marks|)
  }

  /** The grid in which the j-th marked cell holds the j-th draw from position `p` and
      every other cell is kept. */
  ghost function Redraw(g: seq<int>, marks: seq<bool>, d: Draws, p: nat, deck: Deck): (g': seq<int>)
    requires |marks| == |g| && Drawable(deck)
    ensures |g'| == |g|
  {
    seq(|g|, i requires 0 <= i < |g| => if marks[i] then TileAt(d, p + Rank(marks, i), deck) else g[i])
  }
}
