/** Gravity: collapseAndRefill of both engines (engine.go, engine.ts), column by column
    in place, against a reference that filters each column. */
module Gravity {
  import opened Rng
  import opened Generators
  import opened Config
  import opened Board
  import opened Tiles

  // ---- the reference: filter every column, put the next draws on top ----

  ghost function At(g: seq<int>, w: int, r: int, c: int): int {
    if 0 <= Cell(r, c, w) < |g| then g[Cell(r, c, w)] else EMPTY
  }

  /** Column `c`, from top to bottom. */
  ghost function Column(g: seq<int>, w: int, h: nat, c: int): (col: seq<int>)
    ensures |col| == h
  {
    seq(h, r => At(g, w, r, c))
  }

  /** The tiles of a column that stay, in order. */
  ghost function Survivors(col: seq<int>): (s: seq<int>)
    ensures |s| <= |col|
  {
    if col == [] then []
    else if col[0] == EMPTY then Survivors(col[1..])
    else [col[0]] + Survivors(col[1..])
  }

  ghost function Gaps(col: seq<int>): nat {
    |col| - |Survivors(col)|
  }

  /** Draws `p` .. `p+n-1` of a stream. */
  ghost function Fresh(d: Draws, p: nat, n: nat, deck: Deck): (s: seq<int>)
    requires Drawable(deck)
    ensures |s| == n && forall r :: 0 <= r < n ==> 0 <= s[r] < LOCK
  {
    var s := seq(n, r requires 0 <= r < n => TileAt(d, p + r, deck));
    assert forall r :: 0 <= r < n ==> s[r] == TileAt(d, p + r, deck);
    s
  }

  ghost function Settle(col: seq<int>, d: Draws, p: nat, deck: Deck): (s: seq<int>)
    requires Drawable(deck)
    ensures |s| == |col|
  {
    Fresh(d, p, Gaps(col), deck) + Survivors(col)
  }

  /** The empty cells in the columns to the left of `c`. */
  ghost function GapsBefore(g: seq<int>, w: int, h: nat, c: nat): nat {
    if c == 0 then 0 else GapsBefore(g, w, h, c - 1) + Gaps(Column(g, w, h, c - 1))
  }

  ghost function SettledColumn(g: seq<int>, w: int, h: nat, c: nat, d: Draws, p: nat, deck: Deck): (s: seq<int>)
    requires Drawable(deck)
    ensures |s| == h
  {
    Settle(Column(g, w, h, c), d, p + GapsBefore(g, w, h, c), deck)
  }

  /** The board after gravity: every column settles, new tiles in column-major order. */
  ghost function Collapsed(g: seq<int>, w: int, h: int, d: Draws, p: nat, deck: Deck): (g': seq<int>)
    requires IsGrid(g, w, h) && Drawable(deck)
    ensures |g'| == |g|
  {
    seq(|g|, i requires 0 <= i < |g| =>
      IndexFacts(i, w, h); SettledColumn(g, w, h, i % w, d, p, deck)[i / w])
  }

  // ---- columns and cells ----

  lemma ColumnUpdate(g: seq<int>, w: int, h: nat, r: int, c: int, v: int, c': int)
    requires IsGrid(g, w, h) && 0 <= r < h && 0 <= c < w && 0 <= c' < w
    ensures 0 <= Cell(r, c, w) < |g|
    ensures Column(g[Cell(r, c, w) := v], w, h, c') == if c'
      == c then Column(g, w, h, c)[r := v] else Column(g, w, h, c')
  {
    hide Cell;
    CellFacts(r, c, w, h);
    var i := Cell(r, c, w);
    forall r' | 0 <= r' < h
      ensures At(g[i := v], w, r', c') == if c' == c && r' == r then v else At(g, w, r', c')
    {
      CellFacts(r', c', w, h);
    }
  }

  lemma ColumnsDetermine(g: seq<int>, g': seq<int>, w: int, h: nat)
    requires IsGrid(g, w, h) && IsGrid(g', w, h)
    requires forall c :: 0 <= c < w ==> Column(g, w, h, c) == Column(g', w, h, c)
    ensures g == g'
  {
    hide Cell;
    forall i | 0 <= i < |g| ensures g[i] == g'[i] {
      IndexFacts(i, w, h);
      assert Column(g, w, h, i % w)[i / w] == At(g, w, i / w, i % w);
      assert Column(g', w, h, i % w)[i / w] == At(g', w, i / w, i % w);
    }
  }

  /** In each column the survivors keep their order and settle at the bottom, and the
      cells above them are the next draws, counted through the columns to the left. */
  lemma CollapsedColumn(g: seq<int>, w: int, h: int, d: Draws, p: nat, deck: Deck, c: int)
    requires IsGrid(g, w, h) && Drawable(deck) && 0 <= c < w
    ensures Column(Collapsed(g, w, h, d, p, deck), w, h, c) == SettledColumn(g, w, h, c, d, p, deck)
  {
    hide Cell, SettledColumn;
    var g' := Collapsed(g, w, h, d, p, deck);
    forall r | 0 <= r < h
      ensures At(g', w, r, c) == SettledColumn(g, w, h, c, d, p, deck)[r]
    {
      CellFacts(r, c, w, h);
      assert g'[Cell(r, c, w)] == SettledColumn(g, w, h, c, d, p, deck)[r];
    }
  }

  /** A column has no gap exactly when no cell of it is empty. */
  lemma {:induction false} GapsAreEmptyCells(col: seq<int>)
    ensures Gaps(col) == 0 <==> EMPTY !in col
    ensures Gaps(col) == 0 ==> Survivors(col) == col
  {
    if col != [] {
      GapsAreEmptyCells(col[1..]);
      assert col == [col[0]] + col[1..];
    }
  }

  /** A column without gaps does not move, and draws nothing. */
  lemma WholeColumnStays(col: seq<int>, d: Draws, p: nat, deck: Deck)
    requires Drawable(deck) && EMPTY !in col
    ensures Settle(col, d, p, deck) == col && Gaps(col) == 0
  {
    hide Survivors;
    GapsAreEmptyCells(col);
    assert Fresh(d, p, 0, deck) == [];
  }

  // ---- in place ----

  method SetCell(grid: array<int>, w: int, h: int, r: int, c: int, v: int)
    requires IsGrid(grid[..], w, h) && 0 <= r < h && 0 <= c < w
    modifies grid
    ensures Column(grid[..], w, h, c) == old(Column(grid[..], w, h, c))[r := v]
    ensures forall c' :: 0 <= c' < w && c' != c ==> Column(grid[..], w, h, c') == old(Column(grid[..], w, h, c'))
  {
    hide Cell;
    CellFacts(r, c, w, h);
    ghost var g := grid[..];
    grid[Cell(r, c, w)] := v;
    assert grid[..] == g[Cell(r, c, w) := v];
    forall c' | 0 <= c' < w
      ensures Column(grid[..], w, h, c') == if c' == c then Column(g, w, h, c)[r := v] else Column(g, w, h, c')
    {
      ColumnUpdate(g, w, h, r, c, v, c');
    }
  }

  method GetCell(grid: array<int>, w: int, h: int, r: int, c: int) returns (v: int)
    requires IsGrid(grid[..], w, h) && 0 <= r < h && 0 <= c < w
    ensures v == Column(grid[..], w, h, c)[r]
  {
    hide Cell;
    CellFacts(r, c, w, h);
    v := grid[Cell(r, c, w)];
  }

  /** The two-pointer pass over one column: survivors move down, `write` ends just above
      them. */
  method CompactColumn(grid: array<int>, w: int, h: int, c: int) returns (write: int)
    requires IsGrid(grid[..], w, h) && 0 <= c < w
    modifies grid
    ensures forall c' :: 0 <= c' < w && c' != c ==> Column(grid[..], w, h, c') == old(Column(grid[..], w, h, c'))
    ensures write == old(Gaps(Column(grid[..], w, h, c))) - 1
    ensures Column(grid[..], w, h, c)[write + 1..] == old(Survivors(Column(grid[..], w, h, c)))
  {
    hide Column, At;
    ghost var col := Column(grid[..], w, h, c);
    write := h - 1;
    var r := h - 1;
    while r >= 0
      invariant -1 <= r <= write < h
      invariant h - 1 - write == |Survivors(col[r + 1..])|
      invariant Column(grid[..], w, h, c)[write + 1..] == Survivors(col[r + 1..])
      invariant Column(grid[..], w, h, c)[..r + 1] == col[..r + 1]
      invariant forall c' :: 0 <= c' < w && c' != c ==> Column(grid[..], w, h, c') == old(Column(grid[..], w, h, c'))
    {
      var t := GetCell(grid, w, h, r, c);
      assert t == Column(grid[..], w, h, c)[..r + 1][r] == col[r];
      assert col[r..] == [t] + col[r + 1..];
      ghost var now := Column(grid[..], w, h, c);
      if t != EMPTY {
        SetCell(grid, w, h, write, c, t);
        assert now[write := t][write..] == [t] + now[write + 1..];
        assert now[write := t][..r] == now[..r + 1][..r];
        write := write - 1;
      } else {
        assert now[..r] == now[..r + 1][..r];
      }
      assert col[..r + 1][..r] == col[..r];
      r := r - 1;
    }
    assert col[0..] == col;
  }

  /** The next tile, into row `r`; `col` is the column before its refill. */
  method RefillCell(grid: array<int>, w: int, h: int, c: int, r: nat, rng: Generator, ws: Weights, ghost col: seq<int>,
          ghost p: nat)
    requires IsGrid(grid[..], w, h) && 0 <= c < w && r < h && |col| == h
    requires rng.Valid() && Drawable(DeckOf(rng.engine, ws)) && rng.drawn == p + r
    requires Column(grid[..], w, h, c) == Fresh(rng.Stream(), p, r, DeckOf(rng.engine, ws)) + col[r..]
    modifies grid, rng
    ensures rng.Valid() && rng.drawn == p + r + 1
    ensures forall c' :: 0 <= c' < w && c' != c ==> Column(grid[..], w, h, c') == old(Column(grid[..], w, h, c'))
    ensures Column(grid[..], w, h, c) == Fresh(rng.Stream(), p, r + 1, DeckOf(rng.engine, ws)) + col[r + 1..]
  {
    hide Column, At, Outputs, Generator.Valid;
    ghost var d, deck := rng.Stream(), DeckOf(rng.engine, ws);
    var t := RandomTile(rng, ws);
    SetCell(grid, w, h, r, c, t);
    FreshMore(d, p, r, deck);
    assert (Fresh(d, p, r, deck) + col[r..])[r := t] == Fresh(d, p, r, deck) + [t] + col[r + 1..];
  }

  /** New tiles from the top row down to row `write`. */
  method RefillColumn(grid: array<int>, w: int, h: int, c: int, write: int, rng: Generator, ws: Weights)
    requires IsGrid(grid[..], w, h) && 0 <= c < w && -1 <= write < h
    requires rng.Valid() && Drawable(DeckOf(rng.engine, ws))
    modifies grid, rng
    ensures rng.Valid() && rng.drawn == old(rng.drawn) + write + 1
    ensures forall c' :: 0 <= c' < w && c' != c ==> Column(grid[..], w, h, c') == old(Column(grid[..], w, h, c'))
    ensures Column(grid[..], w, h, c)
      == Fresh(rng.Stream(), old(rng.drawn), write + 1, DeckOf(rng.engine, ws))
         + old(Column(grid[..], w, h, c)[write + 1..])
  {
    hide Column, At, Outputs, Generator.Valid, TileAt, Drawable;
    ghost var col := Column(grid[..], w, h, c);
    ghost var d, p, deck := rng.Stream(), rng.drawn, DeckOf(rng.engine, ws);
    assert Fresh(d, p, 0, deck) + col[0..] == col;
    var r := 0;
    while r <= write
      invariant 0 <= r <= write + 1
      invariant rng.Valid() && rng.drawn == p + r
      invariant Column(grid[..], w, h, c) == Fresh(d, p, r, deck) + col[r..]
      invariant forall c' :: 0 <= c' < w && c' != c ==> Column(grid[..], w, h, c') == old(Column(grid[..], w, h, c'))
    {
      RefillCell(grid, w, h, c, r, rng, ws, col, p);
      r := r + 1;
    }
  }

  lemma FreshMore(d: Draws, p: nat, n: nat, deck: Deck)
    requires Drawable(deck)
    ensures Fresh(d, p, n + 1, deck) == Fresh(d, p, n, deck) + [TileAt(d, p + n, deck)]
  {}

  method SettleColumn(grid: array<int>, w: int, h: int, c: int, rng: Generator, ws: Weights) returns (spawned: int)
    requires IsGrid(grid[..], w, h) && 0 <= c < w
    requires rng.Valid() && Drawable(DeckOf(rng.engine, ws))
    modifies grid, rng
    ensures rng.Valid()
    ensures spawned == old(Gaps(Column(grid[..], w, h, c))) && rng.drawn == old(rng.drawn) + spawned
    ensures forall c' :: 0 <= c' < w && c' != c ==> Column(grid[..], w, h, c') == old(Column(grid[..], w, h, c'))
    ensures Column(grid[..], w, h, c)
      == Settle(old(Column(grid[..], w, h, c)), rng.Stream(), old(rng.drawn), DeckOf(rng.engine, ws))
  {
    hide Column, Outputs, Generator.Valid, Survivors, Fresh;
    var write := CompactColumn(grid, w, h, c);
    RefillColumn(grid, w, h, c, write, rng, ws);
    spawned := write + 1;
  }

  /** Gravity over the whole board, column by column. */
  method CollapseAndRefill(grid: array<int>, w: int, h: int, rng: Generator, ws: Weights)
    requires IsGrid(grid[..], w, h)
    requires rng.Valid() && Drawable(DeckOf(rng.engine, ws))
    modifies grid, rng
    ensures rng.Valid() && rng.drawn == old(rng.drawn + GapsBefore(grid[..], w, h, w))
    ensures grid[..] == Collapsed(old(grid[..]), w, h, rng.Stream(), old(rng.drawn), DeckOf(rng.engine, ws))
  {
    hide Column, Outputs, Generator.Valid, Settle, Gaps, Collapsed;
    ghost var g, d, p, deck := grid[..], rng.Stream(), rng.drawn, DeckOf(rng.engine, ws);
    for c := 0 to w
      invariant rng.Valid() && rng.drawn == p + GapsBefore(g, w, h, c)
      invariant forall c' :: 0 <= c' < c ==> Column(grid[..], w, h, c') == SettledColumn(g, w, h, c', d, p, deck)
      invariant forall c' :: c <= c' < w ==> Column(grid[..], w, h, c') == Column(g, w, h, c')
    {
      var _ := SettleColumn(grid, w, h, c, rng, ws);
    }
    ghost var g' := Collapsed(g, w, h, d, p, deck);
    forall c | 0 <= c < w ensures Column(grid[..], w, h, c) == Column(g', w, h, c) {
      CollapsedColumn(g, w, h, d, p, deck, c);
    }
    ColumnsDetermine(grid[..], g', w, h);
  }
}
