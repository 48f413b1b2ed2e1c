/** HasAnyMove (engine.go): count the equal neighbours of every cell. */
module MoveSearch {
  import opened Config
  import opened Board

  /** Row and column offsets in the order in which the loops visit them. */
  ghost predicate Before(i: int, j: int, w: int, dr: int, dc: int)
    requires w > 0
  {
    j / w - i / w < dr || (j / w - i / w == dr && j % w - i % w < dc)
  }

  /** The equal neighbours met before offset (dr, dc). */
  ghost function MatchesBefore(g: seq<int>, w: int, i: int, dr: int, dc: int): set<int>
    requires w > 0 && 0 <= i < |g|
  {
    set j | j in Matches(g, w, i) && Before(i, j, w, dr, dc)
  }

  lemma NextRow(g: seq<int>, w: int, i: int, dr: int)
    requires w > 0 && 0 <= i < |g|
    ensures MatchesBefore(g, w, i, dr, 2) == MatchesBefore(g, w, i, dr + 1, -1)
  {}

  lemma FirstAndLast(g: seq<int>, w: int, i: int)
    requires w > 0 && 0 <= i < |g|
    ensures MatchesBefore(g, w, i, -1, -1) == {}
    ensures MatchesBefore(g, w, i, 2, -1) == Matches(g, w, i)
  {}

  /** One more offset adds the cell there, if there is one and it matches. */
  lemma NextOffset(g: seq<int>, w: int, h: int, i: int, dr: int, dc: int, j: int)
    requires IsGrid(g, w, h) && 0 <= i < |g| && -1 <= dr <= 1 && -1 <= dc <= 1
    requires j == Cell(i / w + dr, i % w + dc, w)
    ensures var inside := 0 <= i / w + dr < h && 0 <= i % w + dc < w && !(dr == 0 && dc == 0);
      && (inside ==> 0 <= j < |g|)
      && var now := MatchesBefore(g, w, i, dr, dc);
         && MatchesBefore(g, w, i, dr, dc + 1) == (if inside && g[j] == g[i] then now + {j} else now)
         && (inside ==> j !in now)
  {
    hide Cell;
    IndexFacts(i, w, h);
    if 0 <= i / w + dr < h && 0 <= i % w + dc < w {
      CellFacts(i / w + dr, i % w + dc, w, h);
    }
    forall k | k in Matches(g, w, i) && k / w - i / w == dr && k % w - i % w == dc
      ensures k == j && 0 <= i / w + dr < h && 0 <= i % w + dc < w
    {
      IndexFacts(k, w, h);
    }
  }

  method CountMatches(grid: array<int>, w: int, h: int, r: int, c: int) returns (n: int)
    requires IsGrid(grid[..], w, h) && 0 <= r < h && 0 <= c < w
    ensures 0 <= Cell(r, c, w) < grid.Length && n == |Matches(grid[..], w, Cell(r, c, w))|
  {
    hide Cell, Matches, MatchesBefore;
    CellFacts(r, c, w, h);
    var i := Cell(r, c, w);
    var t := grid[i];
    n := 0;
    FirstAndLast(grid[..], w, i);
    for dr := -1 to 2
      invariant n == |MatchesBefore(grid[..], w, i, dr, -1)|
    {
      for dc := -1 to 2
        invariant n == |MatchesBefore(grid[..], w, i, dr, dc)|
      {
        var rr, cc := r + dr, c + dc;
        NextOffset(grid[..], w, h, i, dr, dc, Cell(rr, cc, w));
        if !(dr == 0 && dc == 0) && 0 <= rr < h && 0 <= cc < w {
          if grid[Cell(rr, cc, w)] == t {
            n := n + 1;
          }
        }
      }
      NextRow(grid[..], w, i, dr);
    }
  }

  /** True exactly when some chainable cell has at least two equal neighbours. */
  method HasAnyMove(grid: array<int>, w: int, h: int) returns (found: bool)
    requires IsGrid(grid[..], w, h)
    ensures found <==> HasMove(grid[..], w)
  {
    hide Cell, Matches;
    for r := 0 to h
      invariant forall i :: 0 <= i < grid.Length && i / w < r && Chainable(grid[i]) ==> |Matches(grid[..], w, i)| < 2
    {
      for c := 0 to w
        invariant forall i :: 0 <= i < grid.Length && (i / w < r || (i / w == r && i % w < c)) && Chainable(grid[i]) ==>
          |Matches(grid[..], w, i)| < 2
      {
        CellFacts(r, c, w, h);
        var t := grid[Cell(r, c, w)];
        forall i | 0 <= i < grid.Length && i / w == r && i % w == c ensures i == Cell(r, c, w) {
          IndexFacts(i, w, h);
        }
        if t != LOCK && t != EMPTY {
          var n := CountMatches(grid, w, h, r, c);
          if n >= 2 {
            return true;
          }
        }
      }
      forall i | 0 <= i < grid.Length ensures i % w < w {}
    }
    forall i | 0 <= i < grid.Length ensures i / w < h {
      IndexFacts(i, w, h);
    }
    return false;
  }
}
