/** Where everything on the board is after a chain, cell by cell: which tile fell how far,
    which lock became what, and which draw filled which gap (engine.go resolve). */
module BoardLaws {
  import opened Rng
  import opened Config
  import opened Board
  import opened Tiles
  import opened Gravity
  import opened GravityReport
  import opened Accounting
  import opened Play
  import opened MoveLaws

  /** The cells of a chain in column `c`, from row `r` down. */
  ghost function InColumn(path: seq<int>, w: int, c: int, r: int): set<int>
    requires w > 0
  {
    set i | i in path && i % w == c && i / w >= r
  }

  /** The cells of a chain in the columns to the left of `c`. */
  ghost function LeftOf(path: seq<int>, w: int, c: int): set<int>
    requires w > 0
  {
    set i | i in path && i % w < c
  }

  /** The listed cells before cell `i`. */
  ghost function Before(cells: seq<int>, i: int): set<int> {
    set j | j in cells && j < i
  }

  /** `g` is empty exactly at the cells of the path. */
  ghost predicate EmptyAt(g: seq<int>, path: seq<int>) {
    && (forall i :: i in path ==> 0 <= i < |g|)
    && (forall i :: 0 <= i < |g| ==> (g[i] == EMPTY <==> i in path))
  }

  lemma {:induction false} ColumnHoles(g: seq<int>, path: seq<int>, w: int, h: nat, c: nat, r: nat)
    requires IsGrid(g, w, h) && EmptyAt(g, path) && c < w && r <= h
    ensures Gaps(Column(g, w, h, c)[r..]) == |InColumn(path, w, c, r)|
    decreases h - r
  {
    hide Cell, Survivors;
    var col := Column(g, w, h, c);
    if r == h {
      forall i | i in path ensures i / w < h {
        IndexFacts(i, w, h);
      }
      assert InColumn(path, w, c, r) == {};
    } else {
      ColumnHoles(g, path, w, h, c, r + 1);
      SurvivorsFrom(col, r);
      OneRow(g, path, w, h, c, r);
    }
  }

  lemma OneRow(g: seq<int>, path: seq<int>, w: int, h: nat, c: nat, r: nat)
    requires IsGrid(g, w, h) && EmptyAt(g, path) && c < w && r < h
    ensures |InColumn(path, w, c, r)|
      == |InColumn(path, w, c, r + 1)| + if Column(g, w, h, c)[r] == EMPTY then 1 else 0
  {
    hide Cell;
    CellFacts(r, c, w, h);
    var i := Cell(r, c, w);
    forall j | j in path && j % w == c && j / w == r ensures j == i {
      IndexFacts(j, w, h);
    }
    assert InColumn(path, w, c, r) == InColumn(path, w, c, r + 1) + if i in path then {i} else {};
  }

  lemma {:induction false} LeftHoles(g: seq<int>, path: seq<int>, w: int, h: nat, c: nat)
    requires IsGrid(g, w, h) && EmptyAt(g, path) && c <= w
    ensures GapsBefore(g, w, h, c) == |LeftOf(path, w, c)|
    decreases c
  {
    hide Column, Gaps;
    if c == 0 {
      assert LeftOf(path, w, 0) == {};
    } else {
      LeftHoles(g, path, w, h, c - 1);
      ColumnHoles(g, path, w, h, c - 1, 0);
      assert Column(g, w, h, c - 1)[0..] == Column(g, w, h, c - 1);
      forall i | i in path ensures i / w >= 0 {
        IndexFacts(i, w, h);
      }
      assert LeftOf(path, w, c) == LeftOf(path, w, c - 1) + InColumn(path, w, c - 1, 0);
    }
  }

  lemma {:induction false} RankCounts(m: seq<bool>, cells: seq<int>, n: nat)
    requires n <= |m| && forall i :: i in cells <==> 0 <= i < |m| && m[i]
    ensures Rank(m, n) == |Before(cells, n)|
  {
    if n == 0 {
      assert Before(cells, 0) == {};
    } else {
      RankCounts(m, cells, n - 1);
      assert Before(cells, n) == Before(cells, n - 1) + if m[n - 1] then {n - 1} else {};
    }
  }

  /** Gravity on a board that is empty exactly at a chain: every tile falls by the number of
      chain cells below it in its column, and the gaps at the top are filled from the stream,
      column by column, each from the top. */
  lemma Fallen(g: seq<int>, path: seq<int>, w: int, h: nat, d: Draws, p: nat, deck: Deck, r: nat, c: nat)
    requires IsGrid(g, w, h) && EmptyAt(g, path) && Drawable(deck) && r < h && c < w
    ensures 0 <= Cell(r, c, w) < |g|
    ensures var g' := Collapsed(g, w, h, d, p, deck); var to := r + |InColumn(path, w, c, r)|;
      Cell(r, c, w) !in path ==> to < h && 0 <= Cell(to, c, w) < |g'| && g'[Cell(to, c, w)] == g[Cell(r, c, w)]
    ensures var g' := Collapsed(g, w, h, d, p, deck);
      r < |InColumn(path, w, c, 0)| ==> g'[Cell(r, c, w)] == TileAt(d, p + |LeftOf(path, w, c)| + r, deck)
  {
    hide Cell, Survivors, Collapsed, TileAt;
    var g', col := Collapsed(g, w, h, d, p, deck), Column(g, w, h, c);
    CellFacts(r, c, w, h);
    CollapsedColumn(g, w, h, d, p, deck, c);
    LeftHoles(g, path, w, h, c);
    ColumnHoles(g, path, w, h, c, 0);
    assert col[0..] == col;
    assert Column(g', w, h, c)[r] == g'[Cell(r, c, w)];
    if Cell(r, c, w) !in path {
      ColumnHoles(g, path, w, h, c, r);
      SettledAtDest(col, d, p + GapsBefore(g, w, h, c), deck, r);
      var to := Dest(col, r);
      CellFacts(to, c, w, h);
      assert Column(g', w, h, c)[to] == g'[Cell(to, c, w)];
    }
  }

  /** The board after a chain that leaves a move or decides the vault. The locks beside the
      chain are opened first, in ascending order, with the next draws. A tile that is not in
      the chain, or an opened lock, then falls by the number of chain cells below it. The
      cells left at the top of each column take the draws after those, the columns from left
      to right and each from the top. */
  lemma BoardAfterChain(a: Arena, d: Draws, s: Snapshot, path: seq<int>, r: nat, c: nat)
    requires ArenaOk(a) && IsGrid(s.grid, a.w, a.h) && Full(s.grid) && IsChain(s.grid, a.w, path)
    requires r < a.h && c < a.w && Applied(a, d, s, path).reshuffles == s.reshuffles
    ensures var g, g', freed := s.grid, Applied(a, d, s, path).grid, Report(a, d, s, path).unlocked;
      var i, to := Cell(r, c, a.w), r + |InColumn(path, a.w, c, r)|;
      && 0 <= i < |g| == |g'|
      && (i !in path ==>
            && to < a.h && 0 <= Cell(to, c, a.w) < |g'|
            && g'[Cell(to, c, a.w)]
               == if i in freed then TileAt(d, s.drawn + |Before(freed, i)|, a.Deck()) else g[i])
      && (r < |InColumn(path, a.w, c, 0)| ==>
            g'[i] == TileAt(d, s.drawn + |freed| + |LeftOf(path, a.w, c)| + r, a.Deck()))
  {
    hide Cell, Drawable, TileAt, Collapsed, Unlocks, Linked, HasMove, Rounds, CountOf, ChainLoot, Reduced, Listed;
    var spot := Spot(s.grid, s.drawn);
    var m := UnlockMarks(s.grid, a.w, a.h, path);
    var u := AfterUnlock(a, d, spot, path);
    var freed := Report(a, d, s, path).unlocked;
    ListedFacts(m, |m|);
    UnlockCounts(a, d, spot, path);
    ChainCells(s.grid, a.w, path);
    var g := Cleared(u.grid, path);
    assert EmptyAt(g, path);
    Fallen(g, path, a.w, a.h, d, u.drawn, a.Deck(), r, c);
    RankCounts(m, freed, Cell(r, c, a.w));
  }
}
