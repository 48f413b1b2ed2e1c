/** Grids, neighbourhoods and legal chains: what ValidatePath and HasAnyMove decide
    (engine.go). A grid is row-major; row 0 is the top. */
module Board {
  import opened Arithmetic
  import opened Config

  /** The index of the cell in row `r` and column `c`. */
  function Cell(r: int, c: int, w: int): int {
    r * w + c
  }

  lemma CellFacts(r: int, c: int, w: int, h: int)
    requires 0 <= r < h && 0 <= c < w
    ensures 0 <= Cell(r, c, w) < w * h
    ensures Cell(r, c, w) / w == r && Cell(r, c, w) % w == c
  {
    MultipleSize(h - 1 - r, w);
    MultipleSize(r, w);
    assert (h - 1 - r) * w == w * h - w - r * w;
    Divide(r, c, w);
  }

  lemma IndexFacts(i: int, w: int, h: int)
    requires 0 <= i < w * h && w > 0
    ensures 0 <= i / w < h && 0 <= i % w < w && Cell(i / w, i % w, w) == i
  {
    assert i == (i / w) * w + i % w;
    assert (i / w - h) * w == (i / w) * w - h * w;
    MultipleSize(i / w - h, w);
  }

  ghost predicate IsGrid(g: seq<int>, w: int, h: int) {
    w > 0 && h > 0 && |g| == w * h
  }

  predicate Chainable(t: int) {
    t != LOCK && t != EMPTY
  }

  function Abs(x: int): int {
    if x < 0 then -x else x
  }

  /** At most one row and one column apart. */
  predicate Near(i: int, j: int, w: int)
    requires w > 0
  {
    Abs(i / w - j / w) <= 1 && Abs(i % w - j % w) <= 1
  }

  // ---- legal chains ----

  /** A chain links at least three distinct neighbouring cells of one chainable kind. */
  ghost predicate IsChain(g: seq<int>, w: int, path: seq<int>)
    requires w > 0
  {
    && |path| >= 3
    && Linked(g, w, path)
  }

  ghost predicate Linked(g: seq<int>, w: int, path: seq<int>)
    requires w > 0
  {
    && (forall k :: 0 <= k < |path| ==> 0 <= path[k] < |g|)
    && (forall k :: 0 <= k < |path| ==> Chainable(g[path[k]]) && g[path[k]] == g[path[0]])
    && (forall k, l :: 0 <= k < l < |path| ==> path[k] != path[l])
    && (forall k :: 0 < k < |path| ==> Near(path[k - 1], path[k], w))
  }

  lemma ChainCells(g: seq<int>, w: int, path: seq<int>)
    requires w > 0 && IsChain(g, w, path)
    ensures forall k :: 0 <= k < |path| ==> 0 <= path[k] < |g|
  {}

  datatype MoveError = NotPlaying | TooShort | OutOfRange | Repeated | NotChainable | Mixed | NotAdjacent

  /** The first problem of a path, in the order in which ValidatePath looks: cell by
      cell, and for each cell range, repetition, kind, mixture, adjacency. */
  datatype Verdict = Legal | Illegal(why: MoveError)

  /** The problem of cell `k` of a path, given that the cells before it are fine. */
  function CellVerdict(g: seq<int>, w: int, path: seq<int>, k: nat): Verdict
    requires w > 0 && k < |path|
  {
    if !(0 <= path[k] < |g|) then Illegal(OutOfRange)
    else if path[k] in path[..k] then Illegal(Repeated)
    else if !Chainable(g[path[k]]) then Illegal(NotChainable)
    else if k == 0 then Legal
    else if !(0 <= path[0] < |g|) || g[path[k]] != g[path[0]] then Illegal(Mixed)
    else if !Near(path[k - 1], path[k], w) then Illegal(NotAdjacent)
    else Legal
  }

  ghost function PathVerdict(g: seq<int>, w: int, path: seq<int>): Verdict
    requires w > 0
  {
    if |path| < 3 then Illegal(TooShort) else VerdictFrom(g, w, path, 0)
  }

  ghost function VerdictFrom(g: seq<int>, w: int, path: seq<int>, k: nat): Verdict
    requires w > 0 && k <= |path|
    decreases |path| - k
  {
    if k == |path| then Legal
    else if CellVerdict(g, w, path, k).Illegal? then CellVerdict(g, w, path, k)
    else VerdictFrom(g, w, path, k + 1)
  }

  /** ValidatePath, with the set of cells seen so far. */
  method ValidatePath(g: array<int>, w: int, path: seq<int>) returns (r: Verdict)
    requires w > 0
    ensures r == PathVerdict(g[..], w, path)
  {
    if |path| < 3 {
      return Illegal(TooShort);
    }
    var seen: set<int> := {};
    var first := -1;
    for k := 0 to |path|
      invariant seen == set x | x in path[..k]
      invariant k > 0 ==> 0 <= path[0] < g.Length && first == g[path[0]]
      invariant VerdictFrom(g[..], w, path, 0) == VerdictFrom(g[..], w, path, k)
    {
      var idx := path[k];
      if idx < 0 || idx >= g.Length {
        return Illegal(OutOfRange);
      }
      if idx in seen {
        return Illegal(Repeated);
      }
      assert path[..k + 1] == path[..k] + [idx];
      seen := seen + {idx};
      var t := g[idx];
      if t == LOCK || t == EMPTY {
        return Illegal(NotChainable);
      }
      if k == 0 {
        first := t;
      } else {
        if t != first {
          return Illegal(Mixed);
        }
        if Abs(path[k - 1] / w - idx / w) > 1 || Abs(path[k - 1] % w - idx % w) > 1 {
          return Illegal(NotAdjacent);
        }
      }
    }
    return Legal;
  }

  /** A prefix of a path that passes every check is linked. */
  lemma {:induction false} LegalPrefix(g: seq<int>, w: int, path: seq<int>, k: nat)
    requires w > 0 && k <= |path|
    ensures Linked(g, w, path[..k]) && VerdictFrom(g, w, path, k) == Legal <==>
      Linked(g, w, path[..k]) && Linked(g, w, path)
    decreases |path| - k
  {
    if k == |path| {
      assert path[..k] == path;
    } else {
      LegalPrefix(g, w, path, k + 1);
      StepPrefix(g, w, path, k);
      if Linked(g, w, path) {
        LinkedPrefix(g, w, path, k + 1);
      }
    }
  }

  lemma LinkedPrefix(g: seq<int>, w: int, path: seq<int>, k: nat)
    requires w > 0 && k <= |path| && Linked(g, w, path)
    ensures Linked(g, w, path[..k])
  {}

  lemma StepPrefix(g: seq<int>, w: int, path: seq<int>, k: nat)
    requires w > 0 && k < |path|
    ensures Linked(g, w, path[..k + 1]) <==> Linked(g, w, path[..k]) && CellVerdict(g, w, path, k).Legal?
  {
    var a, b := path[..k], path[..k + 1];
    assert forall j :: 0 <= j < k ==> a[j] == b[j];
    if Linked(g, w, b) {
      forall j | 0 <= j < k ensures a[j] != path[k] {
        assert b[j] != b[k];
      }
      if k > 0 { assert Near(b[k - 1], b[k], w); }
    }
  }

  /** ValidatePath accepts exactly the legal chains. */
  lemma LegalIffChain(g: seq<int>, w: int, path: seq<int>)
    requires w > 0
    ensures PathVerdict(g, w, path) == Legal <==> IsChain(g, w, path)
  {
    LegalPrefix(g, w, path, 0);
    assert path[..0] == [];
  }

  // ---- some chain exists ----

  /** The neighbours of cell `i` that hold the same kind. */
  ghost function Matches(g: seq<int>, w: int, i: int): set<int>
    requires w > 0 && 0 <= i < |g|
  {
    set j | 0 <= j < |g| && j != i && Near(i, j, w) && g[j] == g[i]
  }

  ghost predicate HasMove(g: seq<int>, w: int)
    requires w > 0
  {
    exists i :: 0 <= i < |g| && Chainable(g[i]) && |Matches(g, w, i)| >= 2
  }

  lemma TwoOf<T>(s: set<T>) returns (a: T, b: T)
    requires |s| >= 2
    ensures a in s && b in s && a != b
  {
    a :| a in s;
    var t := s - {a};
    assert |t| == |s| - 1;
    b :| b in t;
  }

  lemma AtLeastTwo(s: set<int>, a: int, b: int)
    requires a in s && b in s && a != b
    ensures |s| >= 2
  {
    assert |s - {a}| == |s| - 1 && b in s - {a};
  }

  lemma NearSymmetric(i: int, j: int, w: int)
    requires w > 0
    ensures Near(i, j, w) == Near(j, i, w)
  {}

  /** HasAnyMove's count is the right test: two equal neighbours of one cell make a
      3-chain through it, and the second cell of any legal chain has two. */
  lemma HasMoveIffChain(g: seq<int>, w: int)
    requires w > 0
    ensures HasMove(g, w) <==> exists path :: IsChain(g, w, path)
  {
    if HasMove(g, w) {
      var i :| 0 <= i < |g| && Chainable(g[i]) && |Matches(g, w, i)| >= 2;
      var a, b := TwoOf(Matches(g, w, i));
      NearSymmetric(a, i, w);
      assert IsChain(g, w, [a, i, b]);
    }
    if path :| IsChain(g, w, path) {
      var i := path[1];
      NearSymmetric(path[0], i, w);
      assert Near(path[0], path[1], w) && Near(path[1], path[2], w);
      assert path[0] != path[1] && path[1] != path[2] && path[0] != path[2];
      AtLeastTwo(Matches(g, w, i), path[0], path[2]);
    }
  }
}
