/** What every move and every reshuffle keeps: the board stays full, locks are only ever
    removed by unlocking, and every draw is accounted for. */
module Accounting {
  import opened Rng
  import opened Config
  import opened Board
  import opened Tiles
  import opened Gravity
  import opened Play

  /** No empty cell and no unknown tile. */
  ghost predicate Full(g: seq<int>) {
    forall i :: 0 <= i < |g| ==> 0 <= g[i] <= LOCK
  }

  ghost function CountOf(g: seq<int>, t: int): nat {
    multiset(g)[t]
  }

  // ---- counting marked redraws ----

  lemma CountUpdate(g: seq<int>, i: int, v: int, t: int)
    requires 0 <= i < |g|
    ensures CountOf(g[i := v], t) == CountOf(g, t) - (if g[i] == t then 1 else 0) + if v == t then 1 else 0
  {
    assert multiset(g[i := v]) == multiset(g) - multiset{g[i]} + multiset{v};
  }

  lemma MultisetSplit(g: seq<int>, n: nat)
    requires n < |g|
    ensures multiset(g[..n + 1]) == multiset(g[..n]) + multiset{g[n]}
  {
    assert g[..n + 1] == g[..n] + [g[n]];
  }

  /** A redraw of `k` locks removes `k` locks; a redraw of other cells removes none. */
  lemma {:induction false} RedrawLocks(g: seq<int>, m: seq<bool>, d: Draws, p: nat, deck: Deck, n: nat)
    requires |m| == |g| && Drawable(deck) && n <= |g|
    ensures var g' := Redraw(g, m, d, p, deck);
      && ((forall i :: 0 <= i < |g| && m[i] ==> g[i] == LOCK) ==>
            CountOf(g'[..n], LOCK) + Rank(m, n) == CountOf(g[..n], LOCK))
      && ((forall i :: 0 <= i < |g| && m[i] ==> g[i] != LOCK) ==> CountOf(g'[..n], LOCK) == CountOf(g[..n], LOCK))
  {
    hide Redraw, Drawable;
    var g' := Redraw(g, m, d, p, deck);
    if n > 0 {
      RedrawLocks(g, m, d, p, deck, n - 1);
      MultisetSplit(g, n - 1);
      MultisetSplit(g', n - 1);
      RedrawCellIs(g, m, d, p, deck, n - 1);
    }
  }

  lemma RedrawCellIs(g: seq<int>, m: seq<bool>, d: Draws, p: nat, deck: Deck, i: nat)
    requires |m| == |g| && Drawable(deck) && i < |g|
    ensures var g' := Redraw(g, m, d, p, deck); if m[i] then 0 <= g'[i] < LOCK else g'[i] == g[i]
  {
    hide TileAt;
  }

  lemma {:induction false} NonLockCount(g: seq<int>, n: nat)
    requires n <= |g|
    ensures Rank(NonLocks(g), n) + CountOf(g[..n], LOCK) == n
  {
    if n > 0 {
      NonLockCount(g, n - 1);
      MultisetSplit(g, n - 1);
    }
  }

  lemma {:induction false} LockSetCount(g: seq<int>)
    ensures |Locks(g)| == CountOf(g, LOCK)
  {
    if g != [] {
      var k := |g| - 1;
      LockSetCount(g[..k]);
      MultisetSplit(g, k);
      assert g[..k + 1] == g;
      assert Locks(g) == Locks(g[..k]) + if g[k] == LOCK then {k} else {};
    }
  }

  // ---- the listed unlocks ----

  lemma ListedMore(m: seq<bool>, s: seq<int>, n: nat, t: seq<int>)
    requires n < |m| && t == (if m[n] then s + [n] else s)
    requires forall i :: i in s <==> 0 <= i < n && m[i]
    requires forall j, k :: 0 <= j < k < |s| ==> s[j] < s[k]
    ensures forall i :: i in t <==> 0 <= i <= n && m[i]
    ensures forall j, k :: 0 <= j < k < |t| ==> t[j] < t[k]
  {
    assert forall j :: 0 <= j < |s| ==> s[j] in s;
    forall i ensures i in t <==> 0 <= i <= n && m[i] {
      assert i in t <==> i in s || (m[n] && i == n);
    }
  }

  lemma {:induction false} ListedFacts(m: seq<bool>, n: nat)
    requires n <= |m|
    ensures |Listed(m, n)| == Rank(m, n)
    ensures forall i :: i in Listed(m, n) <==> 0 <= i < n && m[i]
    ensures forall j, k :: 0 <= j < k < |Listed(m, n)| ==> Listed(m, n)[j] < Listed(m, n)[k]
  {
    if n > 0 {
      ListedFacts(m, n - 1);
      ListedMore(m, Listed(m, n - 1), n - 1, Listed(m, n));
    }
  }

  // ---- counting through gravity ----

  /** How often `t` occurs in the first `n` columns. */
  ghost function ColumnCount(g: seq<int>, w: int, h: nat, n: nat, t: int): nat {
    if n == 0 then 0 else ColumnCount(g, w, h, n - 1, t) + CountOf(Column(g, w, h, n - 1), t)
  }

  lemma ColumnAt(g: seq<int>, w: int, h: nat, i: int)
    requires IsGrid(g, w, h) && 0 <= i < |g|
    ensures 0 <= i / w < h && 0 <= i % w < w && Column(g, w, h, i % w)[i / w] == g[i]
    ensures Cell(i / w, i % w, w) == i
  {
    IndexFacts(i, w, h);
  }

  lemma {:induction false} ColumnCountUpdate(g: seq<int>, w: int, h: nat, i: int, v: int, n: nat, t: int)
    requires IsGrid(g, w, h) && 0 <= i < |g| && n <= w
    ensures ColumnCount(g[i := v], w, h, n, t) == ColumnCount(g, w, h, n, t)
      + if n > i % w then (if v == t then 1 else 0) - (if g[i] == t then 1 else 0) else 0
  {
    hide Cell, Column, CountOf;
    if n > 0 {
      ColumnCountUpdate(g, w, h, i, v, n - 1, t);
      ColumnAt(g, w, h, i);
      ColumnUpdate(g, w, h, i / w, i % w, v, n - 1);
      if i % w == n - 1 {
        CountUpdate(Column(g, w, h, n - 1), i / w, v, t);
      }
    }
  }

  lemma {:induction false} NoneInColumns(g: seq<int>, w: int, h: nat, n: nat, t: int)
    requires IsGrid(g, w, h) && n <= w && t !in g
    ensures ColumnCount(g, w, h, n, t) == 0
  {
    hide Cell;
    if n > 0 {
      NoneInColumns(g, w, h, n - 1, t);
      var col := Column(g, w, h, n - 1);
      forall r | 0 <= r < h ensures col[r] != t {
        CellFacts(r, n - 1, w, h);
      }
    }
  }

  /** Counting by columns counts every cell once. */
  lemma {:induction false} CountByColumns(g: seq<int>, w: int, h: nat, k: nat, t: int)
    requires IsGrid(g, w, h) && k <= |g| && forall i :: k <= i < |g| ==> g[i] != t
    ensures ColumnCount(g, w, h, w, t) == CountOf(g, t)
    decreases k
  {
    hide ColumnCount, Column;
    if k == 0 {
      NoneInColumns(g, w, h, w, t);
    } else {
      var g' := g[k - 1 := t + 1];
      CountByColumns(g', w, h, k - 1, t);
      assert g'[k - 1 := g[k - 1]] == g;
      IndexFacts(k - 1, w, h);
      ColumnCountUpdate(g', w, h, k - 1, g[k - 1], w, t);
      CountUpdate(g', k - 1, g[k - 1], t);
    }
  }

  // ---- gravity fills the gaps and nothing else ----

  lemma {:induction false} SurvivorCounts(col: seq<int>, t: int)
    requires t != EMPTY
    ensures CountOf(Survivors(col), t) == CountOf(col, t)
    ensures Gaps(col) == CountOf(col, EMPTY)
  {
    if col != [] {
      SurvivorCounts(col[1..], t);
      assert col == [col[0]] + col[1..];
    }
  }

  lemma FreshHasNo(d: Draws, p: nat, n: nat, deck: Deck, t: int)
    requires Drawable(deck) && !(0 <= t < LOCK)
    ensures CountOf(Fresh(d, p, n, deck), t) == 0
  {
    assert t !in Fresh(d, p, n, deck);
  }

  lemma SettleCounts(col: seq<int>, d: Draws, p: nat, deck: Deck)
    requires Drawable(deck)
    ensures CountOf(Settle(col, d, p, deck), LOCK) == CountOf(col, LOCK)
  {
    hide Survivors, Fresh;
    SurvivorCounts(col, LOCK);
    FreshHasNo(d, p, Gaps(col), deck, LOCK);
  }

  lemma {:induction false} CollapsedColumnLocks(g: seq<int>, w: int, h: int, d: Draws, p: nat, deck: Deck, n: nat)
    requires IsGrid(g, w, h) && Drawable(deck) && n <= w
    ensures ColumnCount(Collapsed(g, w, h, d, p, deck), w, h, n, LOCK) == ColumnCount(g, w, h, n, LOCK)
    ensures GapsBefore(g, w, h, n) == ColumnCount(g, w, h, n, EMPTY)
  {
    hide Collapsed, Column, Settle, Drawable, Gaps;
    if n > 0 {
      CollapsedColumnLocks(g, w, h, d, p, deck, n - 1);
      CollapsedColumn(g, w, h, d, p, deck, n - 1);
      SettleCounts(Column(g, w, h, n - 1), d, p + GapsBefore(g, w, h, n - 1), deck);
      SurvivorCounts(Column(g, w, h, n - 1), LOCK);
    }
  }

  /** Gravity keeps every lock and draws exactly one tile per empty cell. */
  lemma GravityCounts(g: seq<int>, w: int, h: int, d: Draws, p: nat, deck: Deck)
    requires IsGrid(g, w, h) && Drawable(deck)
    ensures CountOf(Collapsed(g, w, h, d, p, deck), LOCK) == CountOf(g, LOCK)
    ensures GapsBefore(g, w, h, w) == CountOf(g, EMPTY)
  {
    hide Collapsed, CountOf, Drawable;
    CollapsedColumnLocks(g, w, h, d, p, deck, w);
    CountByColumns(g, w, h, |g|, LOCK);
    CountByColumns(g, w, h, |g|, EMPTY);
    CountByColumns(Collapsed(g, w, h, d, p, deck), w, h, |g|, LOCK);
  }

  ghost predicate NearlyFull(g: seq<int>) {
    forall i :: 0 <= i < |g| ==> EMPTY <= g[i] <= LOCK
  }

  lemma {:induction false} SettledIsFull(col: seq<int>, d: Draws, p: nat, deck: Deck)
    requires Drawable(deck) && NearlyFull(col)
    ensures Full(Settle(col, d, p, deck))
  {
    hide Fresh, Survivors;
    SurvivorsFull(col);
  }

  lemma {:induction false} SurvivorsFull(col: seq<int>)
    requires NearlyFull(col)
    ensures Full(Survivors(col))
  {
    if col != [] { SurvivorsFull(col[1..]); }
  }

  lemma GravityFills(g: seq<int>, w: int, h: int, d: Draws, p: nat, deck: Deck)
    requires IsGrid(g, w, h) && Drawable(deck) && NearlyFull(g)
    ensures Full(Collapsed(g, w, h, d, p, deck))
  {
    hide Cell, Settle, Drawable;
    var g' := Collapsed(g, w, h, d, p, deck);
    forall i | 0 <= i < |g| ensures 0 <= g'[i] <= LOCK {
      IndexFacts(i, w, h);
      var col := Column(g, w, h, i % w);
      assert NearlyFull(col) by { ColumnNearlyFull(g, w, h, i % w); }
      SettledIsFull(col, d, p + GapsBefore(g, w, h, i % w), deck);
    }
  }

  lemma ColumnNearlyFull(g: seq<int>, w: int, h: nat, c: int)
    requires IsGrid(g, w, h) && NearlyFull(g)
    ensures NearlyFull(Column(g, w, h, c))
  {
    hide Cell;
  }
}
