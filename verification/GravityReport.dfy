/** The client's collapseAndRefill (engine.ts): the same gravity, with a report of the
    moves for the animation. */
module GravityReport {
  import opened Rng
  import opened Generators
  import opened Config
  import opened Board
  import opened Tiles
  import opened Gravity

  datatype Moved = Moved(from: int, to: int)

  datatype ColumnGravity = ColumnGravity(col: int, moved: seq<Moved>, spawned: int)

  /** Where the tile in row `r` of a column lands: as far from the bottom as there are
      survivors from `r` down. */
  ghost function Dest(col: seq<int>, r: nat): nat
    requires r <= |col|
  {
    |col| - |Survivors(col[r..])|
  }

  /** The moves of the rows from `r` down, bottom row first; a tile that stays put is not
      listed. */
  ghost function Moves(col: seq<int>, r: nat): seq<Moved>
    requires r <= |col|
    decreases |col| - r
  {
    if r == |col| then []
    else Moves(col, r + 1) + if col[r] != EMPTY && Dest(col, r) != r then [Moved(r, Dest(col, r))] else []
  }

  /** The row the report gives for an old row: its entry, or the row itself. */
  function Landing(moved: seq<Moved>, r: int): int {
    if moved == [] then r
    else if moved[|moved| - 1].from == r then moved[|moved| - 1].to
    else Landing(moved[..|moved| - 1], r)
  }

  ghost function ReportOf(g: seq<int>, w: int, h: nat, c: nat): ColumnGravity {
    ColumnGravity(c, Moves(Column(g, w, h, c), 0), Gaps(Column(g, w, h, c)))
  }

  // ---- what the report says ----

  lemma SurvivorsFrom(col: seq<int>, r: nat)
    requires r < |col|
    ensures Survivors(col[r..]) == (if col[r] == EMPTY then [] else [col[r]]) + Survivors(col[r + 1..])
  {
    assert col[r..][0] == col[r] && col[r..][1..] == col[r + 1..];
  }

  lemma {:induction false} LandingBelow(col: seq<int>, r: nat, q: int)
    requires r <= |col| && q < r
    ensures Landing(Moves(col, r), q) == q
    decreases |col| - r
  {
    if r < |col| {
      LandingBelow(col, r + 1, q);
      var m := Moves(col, r);
      if m != Moves(col, r + 1) {
        assert m[..|m| - 1] == Moves(col, r + 1);
      }
    }
  }

  lemma {:induction false} LandingIsDest(col: seq<int>, k: nat, r: nat)
    requires k <= r < |col| && col[r] != EMPTY
    ensures Landing(Moves(col, k), r) == Dest(col, r)
    decreases r - k
  {
    var m := Moves(col, k);
    if k < r {
      LandingIsDest(col, k + 1, r);
    } else {
      LandingBelow(col, k + 1, r);
    }
    if m != Moves(col, k + 1) {
      assert m[..|m| - 1] == Moves(col, k + 1);
    }
  }

  /** The survivors from row `r` down end the survivors from any row `k` above. */
  lemma {:induction false} SurvivorsSuffix(col: seq<int>, r: nat, k: nat)
    requires k <= r <= |col|
    ensures |Survivors(col[r..])| <= |Survivors(col[k..])|
    ensures Survivors(col[k..])[|Survivors(col[k..])| - |Survivors(col[r..])|..] == Survivors(col[r..])
    decreases r - k
  {
    hide Survivors;
    if k < r {
      SurvivorsFrom(col, k);
      SurvivorsSuffix(col, r, k + 1);
    }
  }

  /** A survivor is found at its destination once its column has settled. */
  lemma SettledAtDest(col: seq<int>, d: Draws, p: nat, deck: Deck, r: nat)
    requires Drawable(deck) && r < |col| && col[r] != EMPTY
    ensures Gaps(col) <= Dest(col, r) < |col| && r <= Dest(col, r)
    ensures Settle(col, d, p, deck)[Dest(col, r)] == col[r]
  {
    hide Survivors, Fresh;
    assert col[0..] == col;
    SurvivorsSuffix(col, r, 0);
    SurvivorsFrom(col, r);
    var s, t := Survivors(col), Survivors(col[r..]);
    assert s[|s| - |t|] == s[|s| - |t|..][0];
  }

  lemma DestsIncrease(col: seq<int>, q: nat, r: nat)
    requires q < r < |col| && col[q] != EMPTY
    ensures Dest(col, q) < Dest(col, r)
  {
    hide Survivors;
    SurvivorsFrom(col, q);
    SurvivorsSuffix(col, r, q + 1);
  }

  /** The report alone maps every surviving tile from its old row to its new row: tiles
      keep their order, land below the spawned rows, and are found there afterwards. */
  lemma ReportMapsSurvivors(g: seq<int>, w: int, h: int, d: Draws, p: nat, deck: Deck, c: nat, r: nat)
    requires IsGrid(g, w, h) && Drawable(deck) && c < w && r < h
    requires At(g, w, r, c) != EMPTY
    ensures var rep := ReportOf(g, w, h, c); var to := Landing(rep.moved, r);
      && rep.spawned <= to < h && r <= to
      && Column(Collapsed(g, w, h, d, p, deck), w, h, c)[to] == At(g, w, r, c)
      && (forall q: nat :: q < r && At(g, w, q, c) != EMPTY ==> Landing(rep.moved, q) < to)
  {
    hide Collapsed, At, Survivors, Moves, Landing, Dest, Settle, Gaps;
    var col := Column(g, w, h, c);
    CollapsedColumn(g, w, h, d, p, deck, c);
    LandingIsDest(col, 0, r);
    SettledAtDest(col, d, p + GapsBefore(g, w, h, c), deck, r);
    forall q: nat | q < r && At(g, w, q, c) != EMPTY
      ensures Landing(ReportOf(g, w, h, c).moved, q) < Dest(col, r)
    {
      LandingIsDest(col, 0, q);
      DestsIncrease(col, q, r);
    }
  }

  /** A column without gaps reports no move. */
  lemma {:induction false} WholeColumnReportsNothing(col: seq<int>, r: nat)
    requires r <= |col| && EMPTY !in col
    ensures Moves(col, r) == []
    decreases |col| - r
  {
    if r < |col| {
      WholeColumnReportsNothing(col, r + 1);
      GapsAreEmptyCells(col[r..]);
    }
  }

  // ---- in place ----

  method CompactAndReport(grid: array<int>, w: int, h: int, c: int) returns (write: int, moved: seq<Moved>)
    requires IsGrid(grid[..], w, h) && 0 <= c < w
    modifies grid
    ensures forall c' :: 0 <= c' < w && c' != c ==> Column(grid[..], w, h, c') == old(Column(grid[..], w, h, c'))
    ensures write == old(Gaps(Column(grid[..], w, h, c))) - 1
    ensures Column(grid[..], w, h, c)[write + 1..] == old(Survivors(Column(grid[..], w, h, c)))
    ensures moved == Moves(old(Column(grid[..], w, h, c)), 0)
  {
    hide Column, At;
    ghost var col := Column(grid[..], w, h, c);
    write := h - 1;
    moved := [];
    var r := h - 1;
    while r >= 0
      invariant -1 <= r <= write < h
      invariant h - 1 - write == |Survivors(col[r + 1..])|
      invariant Column(grid[..], w, h, c)[write + 1..] == Survivors(col[r + 1..])
      invariant Column(grid[..], w, h, c)[..r + 1] == col[..r + 1]
      invariant forall c' :: 0 <= c' < w && c' != c ==> Column(grid[..], w, h, c') == old(Column(grid[..], w, h, c'))
      invariant moved == Moves(col, r + 1)
    {
      var t := GetCell(grid, w, h, r, c);
      assert t == Column(grid[..], w, h, c)[..r + 1][r] == col[r];
      SurvivorsFrom(col, r);
      ghost var now := Column(grid[..], w, h, c);
      if t != EMPTY {
        if write != r {
          SetCell(grid, w, h, write, c, t);
          moved := moved + [Moved(r, write)];
        }
        assert Column(grid[..], w, h, c) == now[write := t];
        assert now[write := t][write..] == [t] + now[write + 1..];
        assert now[write := t][..r] == now[..r + 1][..r];
        write := write - 1;
      } else {
        assert now[..r] == now[..r + 1][..r];
      }
      assert col[..r + 1][..r] == col[..r];
      r := r - 1;
    }
    assert col[0..] == col;
  }

  /** Same board and same draws as the server's gravity, plus the report. */
  method CollapseAndRefill(grid: array<int>, w: int, h: int, rng: Generator, ws: Weights)
    returns (report: seq<ColumnGravity>)
    requires IsGrid(grid[..], w, h)
    requires rng.Valid() && Drawable(DeckOf(rng.engine, ws))
    modifies grid, rng
    ensures rng.Valid() && rng.drawn == old(rng.drawn + GapsBefore(grid[..], w, h, w))
    ensures grid[..] == Collapsed(old(grid[..]), w, h, rng.Stream(), old(rng.drawn), DeckOf(rng.engine, ws))
    ensures |report| == w && forall c :: 0 <= c < w ==> report[c] == ReportOf(old(grid[..]), w, h, c)
  {
    hide Column, Outputs, Generator.Valid, Settle, Gaps, Collapsed, Moves;
    ghost var g, d, p, deck := grid[..], rng.Stream(), rng.drawn, DeckOf(rng.engine, ws);
    report := [];
    for c := 0 to w
      invariant rng.Valid() && rng.drawn == p + GapsBefore(g, w, h, c)
      invariant forall c' :: 0 <= c' < c ==> Column(grid[..], w, h, c') == SettledColumn(g, w, h, c', d, p, deck)
      invariant forall c' :: c <= c' < w ==> Column(grid[..], w, h, c') == Column(g, w, h, c')
      invariant |report| == c && forall c' :: 0 <= c' < c ==> report[c'] == ReportOf(g, w, h, c')
    {
      var column := SettleAndReport(grid, w, h, c, rng, ws);
      report := report + [column];
    }
    ghost var g' := Collapsed(g, w, h, d, p, deck);
    forall c | 0 <= c < w ensures Column(grid[..], w, h, c) == Column(g', w, h, c) {
      CollapsedColumn(g, w, h, d, p, deck, c);
    }
    ColumnsDetermine(grid[..], g', w, h);
  }

  method SettleAndReport(grid: array<int>, w: int, h: int, c: int, rng: Generator, ws: Weights)
    returns (column: ColumnGravity)
    requires IsGrid(grid[..], w, h) && 0 <= c < w
    requires rng.Valid() && Drawable(DeckOf(rng.engine, ws))
    modifies grid, rng
    ensures rng.Valid() && rng.drawn == old(rng.drawn + Gaps(Column(grid[..], w, h, c)))
    ensures column == ColumnGravity(c, Moves(old(Column(grid[..], w, h, c)), 0), old(Gaps(Column(grid[..], w, h, c))))
    ensures forall c' :: 0 <= c' < w && c' != c ==> Column(grid[..], w, h, c') == old(Column(grid[..], w, h, c'))
    ensures Column(grid[..], w, h, c)
      == Settle(old(Column(grid[..], w, h, c)), rng.Stream(), old(rng.drawn), DeckOf(rng.engine, ws))
  {
    hide Column, Outputs, Generator.Valid, Survivors, Fresh, Moves;
    var write, moved := CompactAndReport(grid, w, h, c);
    RefillColumn(grid, w, h, c, write, rng, ws);
    column := ColumnGravity(c, moved, write + 1);
  }
}
