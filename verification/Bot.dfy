/** The bot's backtracking search (bot.go). */
module Bot {
  import opened Wrappers
  import opened Arithmetic
  import opened Config
  import opened Board

  /** The kinds a search may use; no restriction means every chainable kind. */
  type Kinds = Option<set<int>>

  predicate Allows(kinds: Kinds, t: int) {
    Chainable(t) && (kinds.None? || t in kinds.value)
  }

  /** A legal chain the search is looking for. */
  ghost predicate Candidate(g: seq<int>, w: int, kinds: Kinds, maxLen: nat, c: seq<int>)
    requires w > 0
  {
    3 <= |c| <= maxLen && Linked(g, w, c) && Allows(kinds, g[c[0]])
  }

  /** Lexicographic order of paths of one length. */
  ghost predicate Less(a: seq<int>, b: seq<int>) {
    exists k :: Differs(a, b, k)
  }

  ghost predicate Differs(a: seq<int>, b: seq<int>, k: int) {
    0 <= k < |a| && k < |b| && a[..k] == b[..k] && a[k] < b[k]
  }

  /** The lexicographically smallest of the longest candidates; empty if there are none. */
  ghost predicate IsBest(g: seq<int>, w: int, kinds: Kinds, maxLen: nat, r: seq<int>)
    requires w > 0
  {
    && (r != [] ==> Candidate(g, w, kinds, maxLen, r))
    && (forall c :: Candidate(g, w, kinds, maxLen, c) ==> |c| < |r| || (|c| == |r| && (c == r || Less(r, c))))
  }

  /** There is only one such path. */
  lemma BestIsUnique(g: seq<int>, w: int, kinds: Kinds, maxLen: nat, r: seq<int>, r': seq<int>)
    requires w > 0 && IsBest(g, w, kinds, maxLen, r) && IsBest(g, w, kinds, maxLen, r')
    ensures r == r'
  {
    hide Candidate;
    if r != r' && |r| == |r'| && r != [] {
      assert Less(r, r') && Less(r', r);
      LessIsAsymmetric(r, r');
    }
  }

  lemma LessIsAsymmetric(a: seq<int>, b: seq<int>)
    requires Less(a, b)
    ensures !Less(b, a)
  {
    var k :| Differs(a, b, k);
    forall l ensures !Differs(b, a, l) {}
  }

  // ---- the search, one subtree at a time ----

  /** The candidates that go on from `path` with one of the cells of `next`. */
  ghost predicate InScope(g: seq<int>, w: int, kinds: Kinds, maxLen: nat, path: seq<int>, next: set<int>, c: seq<int>)
    requires w > 0
  {
    Candidate(g, w, kinds, maxLen, c) && |path| < |c| && c[..|path|] == path && c[|path|] in next
  }

  /** Searching a scope turned the best path so far from `b` into `b'`. */
  ghost predicate Explored(g: seq<int>, w: int, kinds: Kinds, maxLen: nat, path: seq<int>, next: set<int>, b: seq<int>,
          b': seq<int>)
    requires w > 0
  {
    && (b' == b || (|b'| > |b| && InScope(g, w, kinds, maxLen, path, next, b')))
    && (forall c :: InScope(g, w, kinds, maxLen, path, next, c) ==> |c| <= |b'|)
    && (b' != b ==> forall c :: InScope(g, w, kinds, maxLen, path, next, c) && |c| == |b'| && c != b' ==> Less(b', c))
  }

  ghost predicate Ascend(low: set<int>, high: set<int>) {
    forall x, y :: x in low && y in high ==> x < y
  }

  /** Two scopes in ascending order. */
  lemma ExploreBoth(g: seq<int>, w: int, kinds: Kinds, maxLen: nat, path: seq<int>, low: set<int>, high: set<int>,
          b: seq<int>, b': seq<int>, b'': seq<int>)
    requires w > 0 && Ascend(low, high)
    requires Explored(g, w, kinds, maxLen, path, low, b, b') && Explored(g, w, kinds, maxLen, path, high, b', b'')
    ensures Explored(g, w, kinds, maxLen, path, low + high, b, b'')
  {
    hide Candidate, Less;
    forall c | InScope(g, w, kinds, maxLen, path, low + high, c)
      ensures |c| <= |b''|
      ensures b'' != b && |c| == |b''| && c != b'' ==> Less(b'', c)
    {
      if c[|path|] in low {
        assert InScope(g, w, kinds, maxLen, path, low, c);
      } else {
        assert InScope(g, w, kinds, maxLen, path, high, c);
        if b'' == b' && b' != b {
          EarlierIsLess(b', c, |path|);
        }
      }
    }
  }

  lemma EarlierIsLess(a: seq<int>, b: seq<int>, k: nat)
    requires Differs(a, b, k)
    ensures Less(a, b)
  {}

  /** A path that is already as long as allowed cannot be beaten. */
  lemma ExploreNoFurther(g: seq<int>, w: int, kinds: Kinds, maxLen: nat, path: seq<int>, next: set<int>, b: seq<int>)
    requires w > 0 && |b| >= maxLen
    ensures Explored(g, w, kinds, maxLen, path, next, b, b)
  {}

  /** The scope of one cell: the path that ends in it, and everything beyond. */
  lemma ExploreCell(g: seq<int>, w: int, kinds: Kinds, maxLen: nat, path: seq<int>, i: int, next: set<int>,
          b: seq<int>, b': seq<int>, b'': seq<int>)
    requires w > 0 && Linked(g, w, path + [i]) && |path| < maxLen && Allows(kinds, g[(path + [i])[0]])
    requires b' == if |path| + 1 >= 3 && |path| + 1 > |b| then path + [i] else b
    requires Explored(g, w, kinds, maxLen, path + [i], next, b', b'')
    requires forall c :: InScope(g, w, kinds, maxLen, path, {i}, c) && c != path + [i] ==> c[|path| + 1] in next
    ensures Explored(g, w, kinds, maxLen, path, {i}, b, b'')
  {
    hide Less, Linked;
    var here := path + [i];
    forall c | InScope(g, w, kinds, maxLen, path, {i}, c)
      ensures c == here || InScope(g, w, kinds, maxLen, here, next, c)
      ensures |c| >= |here|
    {
      assert c[..|path| + 1] == here;
      if |c| == |path| + 1 { assert c == here; }
    }
    forall c | InScope(g, w, kinds, maxLen, here, next, c)
      ensures InScope(g, w, kinds, maxLen, path, {i}, c) && |c| > |here|
    {
      assert c[..|path|] == here[..|path|] == path;
      assert c[|path|] == here[|path|] == i;
    }
  }

  /** Where a candidate can go from the end of a path. */
  lemma NextCell(g: seq<int>, w: int, kinds: Kinds, maxLen: nat, path: seq<int>, next: set<int>, c: seq<int>)
    requires w > 0 && |path| > 0 && InScope(g, w, kinds, maxLen, path, next, c)
    ensures var j := c[|path|]; 0 <= j < |g| && j !in path && g[j] == g[path[0]] && Near(path[|path| - 1], j, w)
    ensures |path| < maxLen && 0 <= path[0] < |g|
  {
    assert path[|path| - 1] == c[|path| - 1] && path[0] == c[0];
    assert forall k :: 0 <= k < |path| ==> path[k] == c[k];
  }

  // ---- the order in which neighbours are tried ----

  ghost function RowSet(w: int, h: int, r: int, lo: int, hi: int): set<int>
    requires w > 0
  {
    set j | 0 <= j < w * h && j / w == r && lo <= j % w < hi
  }

  ghost function AroundSet(w: int, h: int, r: int, c: int, lo: int, hi: int): set<int>
    requires w > 0
  {
    set j | 0 <= j < w * h && lo <= j / w < hi && c - 1 <= j % w < c + 2
  }

  lemma ColumnsAscend(w: int, h: int, r: int, lo: int, hi: int)
    requires w > 0
    ensures Ascend(RowSet(w, h, r, lo, hi), RowSet(w, h, r, hi, hi + 1))
    ensures lo <= hi ==> RowSet(w, h, r, lo, hi) + RowSet(w, h, r, hi, hi + 1) == RowSet(w, h, r, lo, hi + 1)
  {
    var low, high := RowSet(w, h, r, lo, hi), RowSet(w, h, r, hi, hi + 1);
    forall x, y | x in low && y in high ensures x < y {
      assert x == (x / w) * w + x % w && y == (y / w) * w + y % w;
    }
  }

  lemma RowsAscend(w: int, h: int, r: int, c: int, lo: int, hi: int)
    requires w > 0
    ensures Ascend(AroundSet(w, h, r, c, lo, hi), RowSet(w, h, hi, c - 1, c + 2))
    ensures lo <= hi ==>
      AroundSet(w, h, r, c, lo, hi) + RowSet(w, h, hi, c - 1, c + 2) == AroundSet(w, h, r, c, lo, hi + 1)
  {
    var low, high := AroundSet(w, h, r, c, lo, hi), RowSet(w, h, hi, c - 1, c + 2);
    forall x, y | x in low && y in high ensures x < y {
      RowBelow(x, y, w);
    }
  }

  lemma RowBelow(x: int, y: int, w: int)
    requires w > 0 && x / w < y / w
    ensures x < y
  {
    assert x == (x / w) * w + x % w && y == (y / w) * w + y % w;
    MultipleSize(y / w - x / w, w);
    assert (y / w - x / w) * w == (y / w) * w - (x / w) * w;
  }

  lemma SingleCell(w: int, h: int, r: int, c: int)
    requires w > 0
    ensures RowSet(w, h, r, c, c + 1) == if 0 <= r < h && 0 <= c < w then {Cell(r, c, w)} else {}
  {
    if 0 <= r < h && 0 <= c < w {
      CellFacts(r, c, w, h);
    }
    var cells := RowSet(w, h, r, c, c + 1);
    forall j | j in cells ensures 0 <= r < h && 0 <= c < w && j == Cell(r, c, w) {
      IndexFacts(j, w, h);
    }
  }

  lemma OwnCell(w: int, h: int, i: int)
    requires w > 0 && 0 <= i < w * h
    ensures RowSet(w, h, i / w, i % w, i % w + 1) == {i}
  {
    IndexFacts(i, w, h);
    SingleCell(w, h, i / w, i % w);
  }

  /** The depth-first search. `path` and `visited` are changed on the way down and
      restored on the way up. */
  class Search {
    const grid: array<int>
    const w: int
    const h: int
    const kinds: Kinds
    const maxLen: nat
    const visited: array<bool>
    var path: seq<int>
    var best: seq<int>
    ghost const g: seq<int>

    ghost predicate Valid()
      reads this, grid, visited
    {
      && grid[..] == g && IsGrid(g, w, h)
      && |path| <= maxLen && Linked(g, w, path)
      && visited.Length == |g| && (forall i :: 0 <= i < |g| ==> (visited[i] <==> i in path))
    }

    constructor (grid: array<int>, w: int, h: int, kinds: Kinds, maxLen: nat)
      requires IsGrid(grid[..], w, h)
      ensures Valid() && path == [] && best == [] && fresh(visited)
      ensures this.grid == grid && this.w == w && this.h == h && this.kinds == kinds && this.maxLen == maxLen
      ensures g == grid[..]
    {
      this.grid, this.w, this.h, this.kinds, this.maxLen, g := grid, w, h, kinds, maxLen, grid[..];
      path, best := [], [];
      visited := new bool[grid.Length](_ => false);
    }

    /** One more cell on the path, its neighbours in ascending order, and back. */
    method Dfs(idx: int, t: int)
      requires Valid() && |path| < maxLen && idx !in path && Linked(g, w, path + [idx])
      requires Allows(kinds, t) && t == g[(path + [idx])[0]]
      modifies this, visited
      ensures Valid() && path == old(path) && visited[..] == old(visited[..])
      ensures Explored(g, w, kinds, maxLen, path, {idx}, old(best), best)
      decreases maxLen - |path|, 0
    {
      hide Linked, Explored, AroundSet, InScope, Candidate;
      ghost var p, b := path, best;
      Push(idx);
      ghost var b' := best;
      ghost var next := {};
      ExploreNone(g, w, kinds, maxLen, path, best);
      if |path| < maxLen {
        next := AroundSet(w, h, idx / w, idx % w, idx / w - 1, idx / w + 2);
        TryNeighbours(idx, t);
      }
      Covered(g, w, h, kinds, maxLen, p, idx, b');
      ExploreCell(g, w, kinds, maxLen, p, idx, next, b, b', best);
      Pop(p, idx);
    }

    method Push(idx: int)
      requires Valid() && |path| < maxLen && Linked(g, w, path + [idx])
      modifies this, visited
      ensures Valid() && path == old(path) + [idx] && 0 <= idx < |g|
      ensures best == if |path| >= 3 && |path| > |old(best)| then path else old(best)
      ensures forall i :: 0 <= i < |g| ==> visited[i] == (i == idx || old(visited[i]))
    {
      path := path + [idx];
      assert path[|path| - 1] == idx;
      visited[idx] := true;
      if |path| >= 3 && |path| > |best| {
        best := path;
      }
    }

    method Pop(ghost p: seq<int>, idx: int)
      requires Valid() && path == p + [idx] && idx !in p
      modifies this`path, visited
      ensures Valid() && path == p
      ensures forall i :: 0 <= i < |g| ==> visited[i] == (i != idx && old(visited[i]))
    {
      assert path[|path| - 1] == idx;
      LinkedPrefix(g, w, path, |path| - 1);
      visited[idx] := false;
      path := path[..|path| - 1];
    }

    method TryNeighbours(idx: int, t: int)
      requires Valid() && 0 < |path| < maxLen && path[|path| - 1] == idx
      requires Allows(kinds, t) && t == g[path[0]]
      modifies this, visited
      ensures Valid() && path == old(path) && visited[..] == old(visited[..])
      ensures Explored(g, w, kinds, maxLen, path, AroundSet(w, h, idx / w, idx % w, idx / w - 1, idx / w + 2),
                old(best), best)
      decreases maxLen - |path|, 4
    {
      hide Linked, Explored, RowSet;
      ghost var b, r, c := best, idx / w, idx % w;
      assert AroundSet(w, h, r, c, r - 1, r - 1) == {};
      ExploreNone(g, w, kinds, maxLen, path, best);
      hide AroundSet;
      for dr := -1 to 2
        invariant Valid() && path == old(path) && visited[..] == old(visited[..])
        invariant Explored(g, w, kinds, maxLen, path, AroundSet(w, h, r, c, r - 1, r + dr), b, best)
      {
        ghost var b' := best;
        TryRow(idx, dr, t);
        RowsAscend(w, h, r, c, r - 1, r + dr);
        ExploreBoth(g, w, kinds, maxLen, path, AroundSet(w, h, r, c, r - 1, r + dr),
                    RowSet(w, h, r + dr, c - 1, c + 2), b, b', best);
      }
    }

    method TryRow(idx: int, dr: int, t: int)
      requires Valid() && 0 < |path| < maxLen && path[|path| - 1] == idx && -1 <= dr <= 1
      requires Allows(kinds, t) && t == g[path[0]]
      modifies this, visited
      ensures Valid() && path == old(path) && visited[..] == old(visited[..])
      ensures Explored(g, w, kinds, maxLen, path, RowSet(w, h, idx / w + dr, idx % w - 1, idx % w + 2), old(best), best)
      decreases maxLen - |path|, 3
    {
      hide Linked, Explored;
      ghost var b, r, c := best, idx / w + dr, idx % w;
      assert RowSet(w, h, r, c - 1, c - 1) == {};
      ExploreNone(g, w, kinds, maxLen, path, best);
      hide RowSet;
      for dc := -1 to 2
        invariant Valid() && path == old(path) && visited[..] == old(visited[..])
        invariant Explored(g, w, kinds, maxLen, path, RowSet(w, h, r, c - 1, c + dc), b, best)
      {
        ghost var b' := best;
        TryCell(idx, dr, dc, t);
        ColumnsAscend(w, h, r, c - 1, c + dc);
        ExploreBoth(g, w, kinds, maxLen, path, RowSet(w, h, r, c - 1, c + dc), RowSet(w, h, r, c + dc, c + dc + 1), b,
                    b', best);
      }
    }

    method TryCell(idx: int, dr: int, dc: int, t: int)
      requires Valid() && 0 < |path| < maxLen && path[|path| - 1] == idx && -1 <= dr <= 1 && -1 <= dc <= 1
      requires Allows(kinds, t) && t == g[path[0]]
      modifies this, visited
      ensures Valid() && path == old(path) && visited[..] == old(visited[..])
      ensures Explored(g, w, kinds, maxLen, path, RowSet(w, h, idx / w + dr, idx % w + dc, idx % w + dc + 1),
                old(best), best)
      decreases maxLen - |path|, 2
    {
      hide Linked, Explored, RowSet, Near;
      var r, c := idx / w, idx % w;
      PathEnds(g, w, path);
      ExploreNone(g, w, kinds, maxLen, path, best);
      if dr == 0 && dc == 0 {
        OwnCell(w, h, idx);
        SkipCell(g, w, kinds, maxLen, path, idx, best);
        return;
      }
      var rr, cc := r + dr, c + dc;
      SingleCell(w, h, rr, cc);
      if rr < 0 || rr >= h || cc < 0 || cc >= w {
        return;
      }
      CellFacts(rr, cc, w, h);
      StepTo(idx, rr * w + cc, t);
    }

    method StepTo(idx: int, ni: int, t: int)
      requires Valid() && 0 < |path| < maxLen && path[|path| - 1] == idx && 0 <= ni < |g|
      requires Allows(kinds, t) && t == g[path[0]]
      requires Abs(idx / w - ni / w) <= 1 && Abs(idx % w - ni % w) <= 1
      modifies this, visited
      ensures Valid() && path == old(path) && visited[..] == old(visited[..])
      ensures Explored(g, w, kinds, maxLen, path, {ni}, old(best), best)
      decreases maxLen - |path|, 1
    {
      hide Linked, Explored;
      PathEnds(g, w, path);
      if !visited[ni] && grid[ni] == t {
        LinkOne(g, w, path, ni);
        Dfs(ni, t);
      } else {
        SkipCell(g, w, kinds, maxLen, path, ni, best);
      }
    }
  }

  lemma ExploreNone(g: seq<int>, w: int, kinds: Kinds, maxLen: nat, path: seq<int>, b: seq<int>)
    requires w > 0
    ensures Explored(g, w, kinds, maxLen, path, {}, b, b)
  {}

  /** No candidate goes on to a cell that is on the path or of another kind. */
  lemma SkipCell(g: seq<int>, w: int, kinds: Kinds, maxLen: nat, path: seq<int>, i: int, b: seq<int>)
    requires w > 0 && |path| > 0 && 0 <= i < |g| && 0 <= path[0] < |g| && (i in path || g[i] != g[path[0]])
    ensures Explored(g, w, kinds, maxLen, path, {i}, b, b)
  {
    hide Candidate, Less, InScope;
    forall c ensures !InScope(g, w, kinds, maxLen, path, {i}, c) {
      if InScope(g, w, kinds, maxLen, path, {i}, c) {
        ScopeFacts(g, w, kinds, maxLen, path, i, c);
        NextCell(g, w, kinds, maxLen, path, {i}, c);
      }
    }
  }

  lemma ScopeFacts(g: seq<int>, w: int, kinds: Kinds, maxLen: nat, path: seq<int>, i: int, c: seq<int>)
    requires w > 0 && InScope(g, w, kinds, maxLen, path, {i}, c)
    ensures |path| < |c| && c[|path|] == i
  {}

  lemma PathEnds(g: seq<int>, w: int, path: seq<int>)
    requires w > 0 && |path| > 0 && Linked(g, w, path)
    ensures 0 <= path[0] < |g| && 0 <= path[|path| - 1] < |g|
  {}

  lemma LinkOne(g: seq<int>, w: int, path: seq<int>, i: int)
    requires w > 0 && |path| > 0 && Linked(g, w, path) && 0 <= i < |g| && i !in path && g[i] == g[path[0]]
    requires Abs(path[|path| - 1] / w - i / w) <= 1 && Abs(path[|path| - 1] % w - i % w) <= 1
    ensures Linked(g, w, path + [i]) && (path + [i])[0] == path[0]
  {
    var q := path + [i];
    assert q[..|path|] == path;
    assert CellVerdict(g, w, q, |path|).Legal?;
    StepPrefix(g, w, q, |path|);
    assert q[..|path| + 1] == q;
  }

  /** The neighbours are enough: a longer candidate goes on to one of them. */
  lemma Covered(g: seq<int>, w: int, h: int, kinds: Kinds, maxLen: nat, path: seq<int>, i: int, b: seq<int>)
    requires IsGrid(g, w, h) && 0 <= i < |g|
    ensures forall c :: InScope(g, w, kinds, maxLen, path, {i}, c) && c != path + [i] ==>
      |path| + 1 < |c| <= maxLen && c[|path| + 1] in AroundSet(w, h, i / w, i % w, i / w - 1, i / w + 2)
  {
    hide Linked;
    forall c | InScope(g, w, kinds, maxLen, path, {i}, c) && c != path + [i]
      ensures |path| + 1 < |c| <= maxLen && c[|path| + 1] in AroundSet(w, h, i / w, i % w, i / w - 1, i / w + 2)
    {
      assert c[..|path| + 1] == path + [i];
      assert |c| != |path| + 1;
      NextCell(g, w, kinds, maxLen, path + [i], {c[|path| + 1]}, c);
    }
  }

  // ---- the longest chain ----

  const DEFAULT_MAX_CHAIN: nat := 7

  function Cap(maxChain: int): nat {
    if maxChain <= 0 then DEFAULT_MAX_CHAIN else maxChain
  }

  predicate InRange(lo: int, hi: int, j: int) {
    lo <= j < hi
  }

  ghost function Starts(lo: int, hi: int): set<int> {
    set j | lo <= j < hi && InRange(lo, hi, j)
  }

  lemma StartsAscend(i: int, n: int)
    requires 0 <= i < n
    ensures Ascend(Starts(0, i), {i}) && Starts(0, i) + {i} == Starts(0, i + 1)
    ensures Ascend(Starts(0, i + 1), Starts(i + 1, n)) && Starts(0, i + 1) + Starts(i + 1, n) == Starts(0, n)
  {}

  /** No candidate starts in a cell whose kind is not allowed. */
  lemma SkipStart(g: seq<int>, w: int, kinds: Kinds, maxLen: nat, i: int, b: seq<int>)
    requires w > 0 && 0 <= i < |g| && !Allows(kinds, g[i])
    ensures Explored(g, w, kinds, maxLen, [], {i}, b, b)
  {}

  lemma OneCell(g: seq<int>, w: int, i: int)
    requires w > 0 && 0 <= i < |g| && Chainable(g[i])
    ensures Linked(g, w, [] + [i]) && ([] + [i])[0] == i
  {}

  /** Having searched all starts is having found the best path. */
  lemma AllExplored(g: seq<int>, w: int, kinds: Kinds, maxLen: nat, b: seq<int>)
    requires w > 0 && Explored(g, w, kinds, maxLen, [], Starts(0, |g|), [], b)
    ensures IsBest(g, w, kinds, maxLen, b)
  {
    hide Less;
    forall c | Candidate(g, w, kinds, maxLen, c) ensures InScope(g, w, kinds, maxLen, [], Starts(0, |g|), c) {
      assert c[..0] == [];
    }
  }

  /** LongestChain: the lexicographically smallest of the longest legal chains of the
      allowed kinds, up to the length cap; empty exactly when there is none. */
  method LongestChain(maxChain: int, grid: array<int>, w: int, h: int, kinds: Kinds) returns (best: seq<int>)
    requires IsGrid(grid[..], w, h)
    ensures IsBest(grid[..], w, kinds, Cap(maxChain), best)
  {
    hide Explored, IsBest, Linked, Starts;
    var maxLen := Cap(maxChain);
    ghost var g := grid[..];
    var s := new Search(grid, w, h, kinds, maxLen);
    NoStarts();
    ExploreNone(g, w, kinds, maxLen, [], []);
    for i := 0 to w * h
      invariant s.Valid() && s.path == [] && fresh(s) && fresh(s.visited)
      invariant Explored(g, w, kinds, maxLen, [], Starts(0, i), [], s.best)
    {
      ghost var b := s.best;
      StartsAscend(i, w * h);
      var t := grid[i];
      if !Chainable(t) || (kinds.Some? && t !in kinds.value) {
        SkipStart(g, w, kinds, maxLen, i, b);
        ExploreBoth(g, w, kinds, maxLen, [], Starts(0, i), {i}, [], b, b);
        continue;
      }
      OneCell(g, w, i);
      s.Dfs(i, t);
      ExploreBoth(g, w, kinds, maxLen, [], Starts(0, i), {i}, [], b, s.best);
      if |s.best| >= maxLen {
        ExploreNoFurther(g, w, kinds, maxLen, [], Starts(i + 1, w * h), s.best);
        ExploreBoth(g, w, kinds, maxLen, [], Starts(0, i + 1), Starts(i + 1, w * h), [], s.best, s.best);
        break;
      }
    }
    AllExplored(g, w, kinds, maxLen, s.best);
    best := s.best;
  }

  lemma NoStarts()
    ensures Starts(0, 0) == {}
  {}

  // ---- the choice of a move ----

  /** The kinds the bot asks for, in order of preference. */
  ghost function Preferences(greedy: bool, movesLeft: int, o: Objectives): seq<Kinds> {
    (if greedy && movesLeft > 6 then [Some({DIAMOND, MONEY})] else [])
    + [Some(Needed(o))]
    + (if movesLeft <= 3 then [Some({GUARD})] else [])
    + [None]
  }

  function Needed(o: Objectives): set<int> {
    (if o.key > 0 then {KEY} else {}) + (if o.laser > 0 then {LASER} else {}) + (if o.camera > 0 then {CAMERA} else {})
  }

  /** The best chain for the first preference that has one. */
  ghost predicate FirstBest(g: seq<int>, w: int, maxLen: nat, prefs: seq<Kinds>, r: seq<int>)
    requires w > 0
  {
    if prefs == [] then r == []
    else if IsBest(g, w, prefs[0], maxLen, []) then FirstBest(g, w, maxLen, prefs[1..], r)
    else IsBest(g, w, prefs[0], maxLen, r)
  }

  lemma FirstBestFound(g: seq<int>, w: int, maxLen: nat, kinds: Kinds, rest: seq<Kinds>, b: seq<int>, r: seq<int>)
    requires w > 0 && IsBest(g, w, kinds, maxLen, b)
    requires if b == [] then FirstBest(g, w, maxLen, rest, r) else r == b
    ensures FirstBest(g, w, maxLen, [kinds] + rest, r)
  {
    hide IsBest;
    assert ([kinds] + rest)[1..] == rest;
    if IsBest(g, w, kinds, maxLen, []) {
      BestIsUnique(g, w, kinds, maxLen, b, []);
    }
  }

  method Choose(greedy: bool, maxChain: int, grid: array<int>, w: int, h: int, movesLeft: int, o: Objectives)
    returns (mv: seq<int>)
    requires IsGrid(grid[..], w, h)
    ensures FirstBest(grid[..], w, Cap(maxChain), Preferences(greedy, movesLeft, o), mv)
  {
    hide IsBest, FirstBest;
    if greedy && movesLeft > 6 {
      mv := LongestChain(maxChain, grid, w, h, Some({DIAMOND, MONEY}));
      if mv != [] {
        FirstBestFound(grid[..], w, Cap(maxChain), Some({DIAMOND, MONEY}), Preferences(false, movesLeft, o), mv, mv);
        assert [Some({DIAMOND, MONEY})] + Preferences(false, movesLeft, o) == Preferences(greedy, movesLeft, o);
        return;
      }
    }
    mv := ChooseNeeded(maxChain, grid, w, h, movesLeft, o);
    if greedy && movesLeft > 6 {
      FirstBestFound(grid[..], w, Cap(maxChain), Some({DIAMOND, MONEY}), Preferences(false, movesLeft, o), [], mv);
      assert [Some({DIAMOND, MONEY})] + Preferences(false, movesLeft, o) == Preferences(greedy, movesLeft, o);
    } else {
      assert Preferences(false, movesLeft, o) == Preferences(greedy, movesLeft, o);
    }
  }

  method ChooseNeeded(maxChain: int, grid: array<int>, w: int, h: int, movesLeft: int, o: Objectives)
    returns (mv: seq<int>)
    requires IsGrid(grid[..], w, h)
    ensures FirstBest(grid[..], w, Cap(maxChain), Preferences(false, movesLeft, o), mv)
  {
    hide IsBest, FirstBest, Needed;
    ghost var g, cap := grid[..], Cap(maxChain);
    ghost var rest := (if movesLeft <= 3 then [Some({GUARD})] else []) + [None];
    assert Preferences(false, movesLeft, o) == [Some(Needed(o))] + rest;
    mv := LongestChain(maxChain, grid, w, h, Some(Needed(o)));
    if mv != [] {
      FirstBestFound(g, w, cap, Some(Needed(o)), rest, mv, mv);
      return;
    }
    mv := ChooseAny(maxChain, grid, w, h, movesLeft);
    FirstBestFound(g, w, cap, Some(Needed(o)), rest, [], mv);
  }

  method ChooseAny(maxChain: int, grid: array<int>, w: int, h: int, movesLeft: int) returns (mv: seq<int>)
    requires IsGrid(grid[..], w, h)
    ensures FirstBest(grid[..], w, Cap(maxChain), (if movesLeft <= 3 then [Some({GUARD})] else []) + [None], mv)
  {
    hide IsBest;
    ghost var g, cap := grid[..], Cap(maxChain);
    assert FirstBest(g, w, cap, [], []);
    if movesLeft <= 3 {
      mv := LongestChain(maxChain, grid, w, h, Some({GUARD}));
      if mv != [] {
        FirstBestFound(g, w, cap, Some({GUARD}), [None], mv, mv);
        return;
      }
    }
    mv := LongestChain(maxChain, grid, w, h, None);
    ghost var last: seq<Kinds> := [None];
    FirstBestFound(g, w, cap, None, [], mv, mv);
    assert last + [] == last;
    if movesLeft <= 3 {
      FirstBestFound(g, w, cap, Some({GUARD}), [None], [], mv);
    } else {
      assert [] + last == last;
    }
  }

  ghost predicate Offers(g: seq<int>, w: int, kinds: Kinds, maxLen: nat)
    requires w > 0
  {
    exists c :: Candidate(g, w, kinds, maxLen, c)
  }

  lemma PreferOrGoOn(g: seq<int>, w: int, maxLen: nat, kinds: Kinds, rest: seq<Kinds>, r: seq<int>)
    requires w > 0 && FirstBest(g, w, maxLen, [kinds] + rest, r)
    ensures if Offers(g, w, kinds, maxLen) then IsBest(g, w, kinds, maxLen, r) else FirstBest(g, w, maxLen, rest, r)
  {
    hide Linked, Less;
    assert ([kinds] + rest)[1..] == rest;
    assert IsBest(g, w, kinds, maxLen, []) <==> !Offers(g, w, kinds, maxLen);
  }

  /** Which chain is chosen: with more than six moves left a greedy bot takes the best chain
      of money or diamonds if there is one; then the best chain of a kind that still has to be
      disabled; then, with three moves left or fewer, the best guard chain; then the best of
      all. Chains are seven cells at most unless the bot has a limit of its own. */
  lemma ChoicePrefers(greedy: bool, maxChain: int, g: seq<int>, w: int, movesLeft: int, o: Objectives,
          wanted: set<int>, mv: seq<int>)
    requires w > 0 && FirstBest(g, w, Cap(maxChain), Preferences(greedy, movesLeft, o), mv)
    requires forall t ::
      t in wanted <==> (t == KEY && o.key > 0) || (t == LASER && o.laser > 0) || (t == CAMERA && o.camera > 0)
    ensures var cap := if maxChain <= 0 then 7 else maxChain;
      if greedy && movesLeft > 6 && Offers(g, w, Some({MONEY, DIAMOND}), cap) then
        IsBest(g, w, Some({MONEY, DIAMOND}), cap, mv)
      else if Offers(g, w, Some(wanted), cap) then IsBest(g, w, Some(wanted), cap, mv)
      else if movesLeft <= 3 && Offers(g, w, Some({GUARD}), cap) then IsBest(g, w, Some({GUARD}), cap, mv)
      else IsBest(g, w, None, cap, mv)
  {
    hide IsBest, Offers, FirstBest;
    var cap := Cap(maxChain);
    forall t ensures t in wanted <==> t in Needed(o) {}
    assert wanted == Needed(o) && {MONEY, DIAMOND} == {DIAMOND, MONEY};
    var any: seq<Kinds> := [None];
    var late := (if movesLeft <= 3 then [Some({GUARD})] else []) + any;
    assert Preferences(false, movesLeft, o) == [Some(wanted)] + late;
    if greedy && movesLeft > 6 {
      assert Preferences(greedy, movesLeft, o) == [Some({MONEY, DIAMOND})] + ([Some(wanted)] + late);
      PreferOrGoOn(g, w, cap, Some({MONEY, DIAMOND}), [Some(wanted)] + late, mv);
    }
    if !(greedy && movesLeft > 6 && Offers(g, w, Some({MONEY, DIAMOND}), cap)) {
      assert !(greedy && movesLeft > 6) ==> Preferences(greedy, movesLeft, o) == [Some(wanted)] + late;
      LastPreferences(g, w, cap, wanted, movesLeft, mv);
    }
  }

  lemma LastPreferences(g: seq<int>, w: int, cap: nat, wanted: set<int>, movesLeft: int, mv: seq<int>)
    requires w > 0
    requires FirstBest(g, w, cap, [Some(wanted)] + ((if movesLeft <= 3 then [Some({GUARD})] else []) + [None]), mv)
    ensures if Offers(g, w, Some(wanted), cap) then IsBest(g, w, Some(wanted), cap, mv)
      else if movesLeft <= 3 && Offers(g, w, Some({GUARD}), cap) then IsBest(g, w, Some({GUARD}), cap, mv)
      else IsBest(g, w, None, cap, mv)
  {
    hide IsBest, Offers, FirstBest;
    var any: seq<Kinds> := [None];
    var late := (if movesLeft <= 3 then [Some({GUARD})] else []) + any;
    PreferOrGoOn(g, w, cap, Some(wanted), late, mv);
    if !Offers(g, w, Some(wanted), cap) {
      if movesLeft <= 3 {
        PreferOrGoOn(g, w, cap, Some({GUARD}), any, mv);
      } else {
        assert late == any;
      }
      if !(movesLeft <= 3 && Offers(g, w, Some({GUARD}), cap)) { OnlyPreference(g, w, cap, mv); }
    }
  }

  lemma OnlyPreference(g: seq<int>, w: int, cap: nat, mv: seq<int>)
    requires w > 0 && FirstBest(g, w, cap, [None], mv)
    ensures IsBest(g, w, None, cap, mv)
  {}

  /** Some chain exists exactly when some chain of the capped lengths does, for any cap of
      at least three. */
  lemma AnyCandidate(g: seq<int>, w: int, maxLen: nat)
    requires w > 0
    ensures IsBest(g, w, None, maxLen, []) <==> maxLen < 3 || !HasMove(g, w)
  {
    hide HasMove;
    HasMoveIffChain(g, w);
    if HasMove(g, w) && maxLen >= 3 {
      var path :| IsChain(g, w, path);
      LinkedPrefix(g, w, path, 3);
      assert Candidate(g, w, None, maxLen, path[..3]);
    }
    if !HasMove(g, w) {
      forall c ensures !Candidate(g, w, None, maxLen, c) {
        assert !IsChain(g, w, c);
      }
    }
  }

  /** Whatever the bot chooses is a legal chain, and it chooses nothing exactly when no
      move exists or its own length limit is below three. */
  lemma {:induction false} ChoiceIsLegal(g: seq<int>, w: int, maxLen: nat, prefs: seq<Kinds>, mv: seq<int>)
    requires w > 0 && FirstBest(g, w, maxLen, prefs, mv) && |prefs| > 0 && prefs[|prefs| - 1] == None
    ensures mv != [] ==> IsChain(g, w, mv) && |mv| <= maxLen
    ensures mv == [] <==> maxLen < 3 || !HasMove(g, w)
    decreases |prefs|
  {
    hide HasMove, Linked, Less;
    AnyCandidate(g, w, maxLen);
    if !IsBest(g, w, prefs[0], maxLen, []) {
      WidenKinds(g, w, maxLen, prefs[0], mv);
    } else if |prefs| > 1 {
      ChoiceIsLegal(g, w, maxLen, prefs[1..], mv);
    }
  }

  lemma WidenKinds(g: seq<int>, w: int, maxLen: nat, kinds: Kinds, mv: seq<int>)
    requires w > 0 && IsBest(g, w, kinds, maxLen, mv) && !IsBest(g, w, kinds, maxLen, [])
    ensures mv != [] && IsChain(g, w, mv) && !IsBest(g, w, None, maxLen, [])
  {
    hide Less, Linked;
    assert Candidate(g, w, None, maxLen, mv);
  }
}
