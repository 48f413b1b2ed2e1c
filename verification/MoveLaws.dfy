/** The laws of a move: a full board stays full, locks go only by unlocking, and the
    draws a move consumes are unlocks + chain length + rounds * cells that are no locks. */
module MoveLaws {
  import opened Arithmetic
  import opened Rng
  import opened Config
  import opened Board
  import opened Tiles
  import opened Gravity
  import opened Play
  import opened Accounting

  lemma ClearedMore(g: seq<int>, path: seq<int>, n: nat)
    requires n < |path| && 0 <= path[n] < |g|
    ensures Cleared(g, path[..n + 1]) == Cleared(g, path[..n])[path[n] := EMPTY]
  {
    assert path[..n + 1] == path[..n] + [path[n]];
  }

  /** Removing a chain from a full board empties exactly its cells. */
  lemma {:induction false} ClearCounts(g: seq<int>, w: int, path: seq<int>, n: nat)
    requires w > 0 && Full(g) && n <= |path| && Linked(g, w, path)
    ensures CountOf(Cleared(g, path[..n]), EMPTY) == n
    ensures CountOf(Cleared(g, path[..n]), LOCK) == CountOf(g, LOCK)
  {
    hide CountOf;
    if n == 0 {
      assert Cleared(g, path[..0]) == g;
      NoEmpty(g);
    } else {
      var c := Cleared(g, path[..n - 1]);
      ClearCounts(g, w, path, n - 1);
      ClearedMore(g, path, n - 1);
      assert path[n - 1] !in path[..n - 1];
      assert c[path[n - 1]] == g[path[n - 1]];
      CountUpdate(c, path[n - 1], EMPTY, EMPTY);
      CountUpdate(c, path[n - 1], EMPTY, LOCK);
    }
  }

  lemma NoEmpty(g: seq<int>)
    requires Full(g)
    ensures CountOf(g, EMPTY) == 0
  {
    assert EMPTY !in g;
  }

  lemma UnlockCounts(a: Arena, d: Draws, s: Spot, path: seq<int>)
    requires ArenaOk(a) && IsGrid(s.grid, a.w, a.h) && Full(s.grid) && IsChain(s.grid, a.w, path)
    ensures var u := AfterUnlock(a, d, s, path); var k := Count(UnlockMarks(s.grid, a.w, a.h, path));
      && u.drawn == s.drawn + k
      && Full(u.grid) && CountOf(u.grid, LOCK) + k == CountOf(s.grid, LOCK)
      && Linked(u.grid, a.w, path)
  {
    hide Redraw, Rank, CountOf, Drawable;
    var m := UnlockMarks(s.grid, a.w, a.h, path);
    RedrawLocks(s.grid, m, d, s.drawn, a.Deck(), |m|);
    var u := AfterUnlock(a, d, s, path).grid;
    assert u[..|m|] == u && s.grid[..|m|] == s.grid;
    forall i | 0 <= i < |u| ensures if m[i] then 0 <= u[i] < LOCK else u[i] == s.grid[i] {
      RedrawCellIs(s.grid, m, d, s.drawn, a.Deck(), i);
    }
    forall k | 0 <= k < |path| ensures u[path[k]] == s.grid[path[k]] {}
  }

  lemma ChainCounts(a: Arena, d: Draws, s: Spot, path: seq<int>)
    requires ArenaOk(a) && IsGrid(s.grid, a.w, a.h) && Full(s.grid) && IsChain(s.grid, a.w, path)
    ensures var r := AfterChain(a, d, s, path); var k := Count(UnlockMarks(s.grid, a.w, a.h, path));
      && r.drawn == s.drawn + k + |path|
      && Full(r.grid) && CountOf(r.grid, LOCK) + k == CountOf(s.grid, LOCK)
  {
    hide AfterUnlock, Rank, CountOf, Drawable, Collapsed, UnlockMarks, Unlocks, GapsBefore;
    UnlockCounts(a, d, s, path);
    var u := AfterUnlock(a, d, s, path);
    ClearCounts(u.grid, a.w, path, |path|);
    assert path[..|path|] == path;
    var c := Cleared(u.grid, path);
    GravityCounts(c, a.w, a.h, d, u.drawn, a.Deck());
    GravityFills(c, a.w, a.h, d, u.drawn, a.Deck());
  }

  // ---- reshuffles ----

  lemma RoundLaws(a: Arena, d: Draws, s: Spot)
    requires ArenaOk(a) && Full(s.grid)
    ensures var r := Round(a, d, s);
      && r.drawn == s.drawn + |s.grid| - CountOf(s.grid, LOCK)
      && Full(r.grid) && CountOf(r.grid, LOCK) == CountOf(s.grid, LOCK)
      && (forall i :: 0 <= i < |s.grid| ==> (r.grid[i] == LOCK <==> s.grid[i] == LOCK))
  {
    hide Redraw, Rank, CountOf, Drawable;
    var m := NonLocks(s.grid);
    var r := Round(a, d, s);
    RedrawLocks(s.grid, m, d, s.drawn, a.Deck(), |m|);
    assert r.grid[..|m|] == r.grid && s.grid[..|m|] == s.grid;
    NonLockCount(s.grid, |m|);
    forall i | 0 <= i < |s.grid| ensures if m[i] then 0 <= r.grid[i] < LOCK else r.grid[i] == s.grid[i] {
      RedrawCellIs(s.grid, m, d, s.drawn, a.Deck(), i);
    }
  }

  lemma {:induction false} RoundsLaws(a: Arena, d: Draws, s: Spot, n: nat)
    requires ArenaOk(a) && Full(s.grid)
    ensures var r := AfterRounds(a, d, s, n);
      && r.drawn == s.drawn + n * (|s.grid| - CountOf(s.grid, LOCK))
      && Full(r.grid) && CountOf(r.grid, LOCK) == CountOf(s.grid, LOCK)
      && (forall i :: 0 <= i < |s.grid| ==> (r.grid[i] == LOCK <==> s.grid[i] == LOCK))
    decreases n
  {
    hide Round, CountOf;
    if n > 0 {
      RoundLaws(a, d, s);
      RoundsLaws(a, d, Round(a, d, s), n - 1);
    }
  }

  /** A reshuffle stops at the first board with a move; it gives up only after `left`
      rounds, none of which had one. */
  lemma {:induction false} RoundsStop(a: Arena, d: Draws, s: Spot, left: nat)
    requires ArenaOk(a)
    ensures var n := Rounds(a, d, s, left);
      && (n == left || HasMove(AfterRounds(a, d, s, n).grid, a.w))
      && (forall k: nat :: 0 < k < n ==> !HasMove(AfterRounds(a, d, s, k).grid, a.w))
      && (left > 0 ==> n > 0)
    decreases left
  {
    hide Round, HasMove;
    if left > 0 {
      var r := Round(a, d, s);
      RoundsStop(a, d, r, left - 1);
      assert AfterRounds(a, d, s, 1) == AfterRounds(a, d, r, 0) == r;
      forall k: nat | 1 < k < Rounds(a, d, s, left) ensures !HasMove(AfterRounds(a, d, s, k).grid, a.w) {
        assert AfterRounds(a, d, s, k) == AfterRounds(a, d, r, k - 1);
      }
    }
  }

  // ---- the theorems ----

  /** One step apart, up, down, left or right. */
  ghost predicate Beside(i: int, j: int, w: int)
    requires w > 0
  {
    Abs(i / w - j / w) + Abs(i % w - j % w) == 1
  }

  /** The index arithmetic of the code finds exactly the cells one step away. */
  lemma BesideIndices(i: int, j: int, w: int, h: int)
    requires w > 0 && 0 <= i < w * h && 0 <= j < w * h
    ensures Beside(i, j, w) <==>
      || (i / w > 0 && j == i - w) || (i / w < h - 1 && j == i + w)
      || (i % w > 0 && j == i - 1) || (i % w < w - 1 && j == i + 1)
  {
    IndexFacts(i, w, h);
    IndexFacts(j, w, h);
    var r, c := i / w, i % w;
    CellSteps(r, c, w);
    if j == i - w { Divide(r - 1, c, w); }
    if j == i + w { Divide(r + 1, c, w); }
    if j == i - 1 && c > 0 { Divide(r, c - 1, w); }
    if j == i + 1 && c < w - 1 { Divide(r, c + 1, w); }
  }

  lemma CellSteps(r: int, c: int, w: int)
    ensures Cell(r - 1, c, w) == Cell(r, c, w) - w && Cell(r + 1, c, w) == Cell(r, c, w) + w
    ensures Cell(r, c - 1, w) == Cell(r, c, w) - 1 && Cell(r, c + 1, w) == Cell(r, c, w) + 1
  {}

  lemma UnlocksBeside(g: seq<int>, w: int, h: int, path: seq<int>, i: int)
    requires IsGrid(g, w, h) && 0 <= i < |g| && forall k :: 0 <= k < |path| ==> 0 <= path[k] < |g|
    ensures Unlocks(g, w, h, path, i) <==> g[i] == LOCK && exists k :: 0 <= k < |path| && Beside(i, path[k], w)
  {
    hide Beside, IsGrid;
    assert w > 0 && |g| == w * h by { GridSize(g, w, h); }
    forall k | 0 <= k < |path|
      ensures Beside(i, path[k], w) <==>
        || (i / w > 0 && path[k] == i - w) || (i / w < h - 1 && path[k] == i + w)
        || (i % w > 0 && path[k] == i - 1) || (i % w < w - 1 && path[k] == i + 1)
    {
      BesideIndices(i, path[k], w, h);
    }
  }

  lemma GridSize(g: seq<int>, w: int, h: int)
    requires IsGrid(g, w, h)
    ensures w > 0 && |g| == w * h
  {}

  /** The locks a move opens: exactly the locks one step from the chain, up, down, left or
      right, reported in ascending order. */
  lemma UnlockedAreTheAdjacentLocks(a: Arena, d: Draws, s: Snapshot, path: seq<int>)
    requires ArenaOk(a) && IsGrid(s.grid, a.w, a.h) && IsChain(s.grid, a.w, path)
    ensures var list := Report(a, d, s, path).unlocked;
      && (forall i :: i in list <==>
            0 <= i < |s.grid| && s.grid[i] == LOCK && exists k :: 0 <= k < |path| && Beside(i, path[k], a.w))
      && (forall j, k :: 0 <= j < k < |list| ==> list[j] < list[k])
  {
    hide Applied, Unlocks, Drawable, ChainLoot, Linked, Listed, Beside, IsGrid;
    var m := UnlockMarks(s.grid, a.w, a.h, path);
    ListedFacts(m, |m|);
    ChainCells(s.grid, a.w, path);
    forall i | 0 <= i < |s.grid|
      ensures m[i] <==> s.grid[i] == LOCK && exists k :: 0 <= k < |path| && Beside(i, path[k], a.w)
    {
      UnlocksBeside(s.grid, a.w, a.h, path, i);
    }
  }

  /** Stream accounting of one move, and what it keeps. */
  lemma MoveAccounting(a: Arena, d: Draws, s: Snapshot, path: seq<int>)
    requires ArenaOk(a) && IsGrid(s.grid, a.w, a.h) && Full(s.grid) && IsChain(s.grid, a.w, path)
    ensures var s' := Applied(a, d, s, path); var freed := |Report(a, d, s, path).unlocked|;
      && IsGrid(s'.grid, a.w, a.h) && Full(s'.grid)
      && CountOf(s'.grid, LOCK) == CountOf(s.grid, LOCK) - freed
      && s'.drawn == s.drawn + freed + |path| + (s'.reshuffles - s.reshuffles) * (|s.grid| - CountOf(s'.grid, LOCK))
  {
    hide AfterChain, Unlocks, Drawable, ChainLoot, Linked, Listed, Rounds, AfterRounds, CountOf, HasMove, Reduced,
         UnlockMarks, Rank;
    var spot := Spot(s.grid, s.drawn);
    var m := UnlockMarks(s.grid, a.w, a.h, path);
    ListedFacts(m, |m|);
    ChainCounts(a, d, spot, path);
    var r := AfterChain(a, d, spot, path);
    RoundsLaws(a, d, r, Applied(a, d, s, path).reshuffles - s.reshuffles);
  }

  /** What a chain does to loot, objectives, budget and state, and what is reported of it.
      Each of its `n` tiles is worth 40 (key, laser, camera), 100 (money), 250 (diamond) or
      30 (guard), once for a chain of three, one and a half times for four, twice for five
      and three times from six on. Its own kind has `n` less to disable, down to none; only
      a guard chain costs no move. */
  lemma MoveScores(a: Arena, d: Draws, s: Snapshot, path: seq<int>)
    requires ArenaOk(a) && IsGrid(s.grid, a.w, a.h) && Full(s.grid) && IsChain(s.grid, a.w, path)
    ensures var s', r := Applied(a, d, s, path), Report(a, d, s, path);
      var t, n, o, o' := s.grid[path[0]], |path|, s.objectives, s'.objectives;
      var worth := if t == DIAMOND then 250 else if t == MONEY then 100 else if t == GUARD then 30 else 40;
      && 2 * (s'.loot - s.loot) == n * worth * (if n == 3 then 2 else if n == 4 then 3 else if n == 5 then 4 else 6)
      && o'.key == (if t != KEY then o.key else if o.key > n then o.key - n else 0)
      && o'.laser == (if t != LASER then o.laser else if o.laser > n then o.laser - n else 0)
      && o'.camera == (if t != CAMERA then o.camera else if o.camera > n then o.camera - n else 0)
      && s'.movesLeft == (if t == GUARD then s.movesLeft else s.movesLeft - 1)
      && (s'.state == Cracked <==> o'.key == 0 && o'.laser == 0 && o'.camera == 0)
      && (s'.state == Busted <==> s'.movesLeft <= 0 && !(o'.key == 0 && o'.laser == 0 && o'.camera == 0))
      && r.tile == t && r.length == n && r.loot == s'.loot - s.loot && (r.bonusMove <==> t == GUARD)
      && r.pct == (if n == 3 then 100 else if n == 4 then 150 else if n == 5 then 200 else 300)
      && r.objectives == o' && r.state == s'.state
  {
    hide AfterChain, Drawable, Rounds, AfterRounds, HasMove, ChainLoot;
    var t, n := s.grid[path[0]], |path|;
    assert t in {KEY, LASER, CAMERA, MONEY, DIAMOND, GUARD};
    ChainWorth(t, n);
  }

  lemma ChainWorth(t: int, n: nat)
    requires n >= 3 && t in {KEY, LASER, CAMERA, MONEY, DIAMOND, GUARD}
    ensures var worth := if t == DIAMOND then 250 else if t == MONEY then 100 else if t == GUARD then 30 else 40;
      2 * ChainLoot(t, n) == n * worth * (if n == 3 then 2 else if n == 4 then 3 else if n == 5 then 4 else 6)
  {
    assert n > 5 ==> n * BaseLoot(t) * ChainPct(n) == 300 * (n * BaseLoot(t));
  }

  /** After a move the vault is decided, or a chain exists, or a hundred redraws in a row
      failed to make one. */
  lemma MoveLeavesAMove(a: Arena, d: Draws, s: Snapshot, path: seq<int>)
    requires ArenaOk(a) && IsGrid(s.grid, a.w, a.h) && IsChain(s.grid, a.w, path)
    ensures var s' := Applied(a, d, s, path);
      s'.state == Playing ==> HasMove(s'.grid, a.w) || s'.reshuffles == s.reshuffles + 100
  {
    hide AfterChain, Drawable, ChainLoot, Linked, Rounds, HasMove, Reduced;
    var r := AfterChain(a, d, Spot(s.grid, s.drawn), path);
    RoundsStop(a, d, r, MAX_ROUNDS);
  }

  lemma {:induction false} PlacedLocks(d: Draws, s: Spot, k: nat)
    requires 0 < |s.grid| && Lively(d, |s.grid|) && Full(s.grid)
    requires |Locks(s.grid)| + k <= |s.grid| / 2
    ensures var r := PlaceLocks(d, s, k); Full(r.grid) && |Locks(r.grid)| == |Locks(s.grid)| + k
    decreases k, if k > 0 then Wait(d, |s.grid|, Locks(s.grid), s.drawn) else 0
  {
    hide Lively, Below, Wait, Locks;
    if k > 0 {
      LivelyEscapes(d, |s.grid|, Locks(s.grid), s.drawn);
      var i := Below(d(s.drawn), |s.grid|);
      if s.grid[i] != LOCK {
        LockSetUpdate(s.grid, i);
        PlacedLocks(d, Spot(s.grid[i := LOCK], s.drawn + 1), k - 1);
      } else {
        LockIsIn(s.grid, i);
        MissShortensWait(d, |s.grid|, Locks(s.grid), s.drawn);
        PlacedLocks(d, s.(drawn := s.drawn + 1), k);
      }
    }
  }

  lemma LockIsIn(g: seq<int>, i: int)
    requires 0 <= i < |g| && g[i] == LOCK
    ensures i in Locks(g)
  {}

  /** `s` is `pct` percent of `v` as the difficulty scales it: nothing stays nothing, and the
      rest is rounded to the nearest whole number, a half upwards. */
  ghost predicate PercentOf(v: int, pct: int, s: int) {
    (v == 0 ==> s == 0) && (v > 0 ==> 100 * s <= v * pct + 50 < 100 * s + 100)
  }

  /** A new vault is full, has exactly its locks, and offers a move unless a hundred
      redraws in a row failed to make one. Each of its objectives is the configured one of
      the same kind times the difficulty percentage, rounded; its budget is the configured
      one and three more with the booster; it has no loot. */
  lemma OpenedLaws(a: Arena, d: Draws, p: nat, pct: int, extra: bool)
    requires CanGenerate(a, d)
    ensures var s := Opened(a, d, p, pct, extra);
      && IsGrid(s.grid, a.w, a.h) && Full(s.grid) && CountOf(s.grid, LOCK) == a.vault.locks
      && (HasMove(s.grid, a.w) || s.reshuffles == 100)
      && s.state == Playing && s.loot == 0
      && s.movesLeft == a.vault.moves + (if extra then 3 else 0)
    ensures pct >= 0 ==>
      var s, o := Opened(a, d, p, pct, extra).objectives, a.vault.objectives;
      && (o.key >= 0 ==> PercentOf(o.key, pct, s.key))
      && (o.laser >= 0 ==> PercentOf(o.laser, pct, s.laser))
      && (o.camera >= 0 ==> PercentOf(o.camera, pct, s.camera))
  {
    hide Lively, Drawable, Rounds, HasMove, CountOf, PlaceLocks, Round, Scale, PercentOf;
    var f := Filled(a, d, p);
    FilledIsFull(a, d, p);
    PlacedLocks(d, f, a.vault.locks);
    var spot := Locked(a, d, p);
    LockSetCount(spot.grid);
    RoundsLaws(a, d, spot, Opened(a, d, p, pct, extra).reshuffles);
    RoundsStop(a, d, spot, MAX_ROUNDS);
    if pct >= 0 {
      ScaledIsPercent(a.vault.objectives.key, pct);
      ScaledIsPercent(a.vault.objectives.laser, pct);
      ScaledIsPercent(a.vault.objectives.camera, pct);
    }
  }

  lemma ScaledIsPercent(v: int, pct: int)
    requires pct >= 0
    ensures v >= 0 ==> PercentOf(v, pct, Scale(v, pct))
  {
    assert v >= 0 ==> v * pct >= 0;
  }

  lemma FilledIsFull(a: Arena, d: Draws, p: nat)
    requires ArenaOk(a) && a.w * a.h > 0
    ensures Full(Filled(a, d, p).grid)
  {}

  // ---- difficulty can scale every objective away ----

  lemma ScaleZero(v: int, pct: int)
    requires v >= 0 && pct >= 0
    ensures Scale(v, pct) == 0 <==> v * pct < 50
  {
    assert v * pct >= 0;
  }

  /** A new vault is always in play, yet it has nothing left to disable exactly when every
      objective times the difficulty percentage stays below 50: its first legal chain, of
      any kind, cracks it. */
  lemma NothingToDisable(a: Arena, d: Draws, p: nat, pct: int, extra: bool)
    requires CanGenerate(a, d) && pct >= 0
    requires a.vault.objectives.key >= 0 && a.vault.objectives.laser >= 0 && a.vault.objectives.camera >= 0
    ensures var s := Opened(a, d, p, pct, extra); var o := a.vault.objectives;
      && s.state == Playing
      && (AllDone(s.objectives) <==> o.key * pct < 50 && o.laser * pct < 50 && o.camera * pct < 50)
      && (AllDone(s.objectives) ==>
            forall path :: IsChain(s.grid, a.w, path) ==> Applied(a, d, s, path).state == Cracked)
  {
    hide Lively, Drawable, Rounds, HasMove, PlaceLocks, Scale, Linked, AfterChain, AfterRounds, ChainLoot;
    var o := a.vault.objectives;
    ScaleZero(o.key, pct);
    ScaleZero(o.laser, pct);
    ScaleZero(o.camera, pct);
    OpenedLaws(a, d, p, pct, extra);
  }
}
