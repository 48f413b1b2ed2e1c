/** What setting up a vault draws: a tile per cell, the draws that name cells for the locks,
    and a tile per unlocked cell in every redraw (engine.go generate). */
module OpeningLaws {
  import opened Rng
  import opened Config
  import opened Board
  import opened Tiles
  import opened Play
  import opened Accounting
  import opened MoveLaws

  /** The cells that `n` draws from position `p` name. */
  ghost function Named(d: Draws, cells: int, p: nat, n: nat): set<int>
    requires cells > 0
  {
    if n == 0 then {} else Named(d, cells, p, n - 1) + {Below(d(p + n - 1), cells)}
  }

  /** It takes `n` draws to name `k` different cells. */
  ghost predicate Takes(d: Draws, cells: int, p: nat, k: nat, n: nat)
    requires cells > 0
  {
    |Named(d, cells, p, n)| == k && forall m: nat :: m < n ==> |Named(d, cells, p, m)| < k
  }

  lemma TakesIsUnique(d: Draws, cells: int, p: nat, k: nat, n: nat, n': nat)
    requires cells > 0 && Takes(d, cells, p, k, n) && Takes(d, cells, p, k, n')
    ensures n == n'
  {}

  lemma {:induction false} NamedFirst(d: Draws, cells: int, p: nat, n: nat)
    requires cells > 0 && n > 0
    ensures Named(d, cells, p, n) == {Below(d(p), cells)} + Named(d, cells, p + 1, n - 1)
  {
    hide Below;
    if n > 1 { NamedFirst(d, cells, p, n - 1); }
  }

  /** After some draws the locks are the old ones and the cells named since. */
  ghost predicate Covers(d: Draws, s: Spot, k: nat, r: Spot)
    requires |s.grid| > 0
  {
    && r.drawn >= s.drawn
    && Locks(r.grid) == Locks(s.grid) + Named(d, |s.grid|, s.drawn, r.drawn - s.drawn)
    && forall m: nat :: m < r.drawn - s.drawn ==> |Locks(s.grid) + Named(d, |s.grid|, s.drawn, m)| < |Locks(s.grid)| + k
  }

  lemma OneMoreNamed(d: Draws, cells: int, p: nat, before: set<int>, after: set<int>, m: nat)
    requires cells > 0 && m > 0 && after == before + {Below(d(p), cells)}
    ensures before + Named(d, cells, p, m) == after + Named(d, cells, p + 1, m - 1)
  {
    hide Below, Named;
    NamedFirst(d, cells, p, m);
  }

  lemma CoversOneMore(d: Draws, s: Spot, k: nat, s': Spot, k': nat, r: Spot)
    requires |s.grid| == |s'.grid| > 0 && k > 0 && s'.drawn == s.drawn + 1
    requires Locks(s'.grid) == Locks(s.grid) + {Below(d(s.drawn), |s.grid|)}
    requires |Locks(s'.grid)| + k' == |Locks(s.grid)| + k && Covers(d, s', k', r)
    ensures Covers(d, s, k, r)
  {
    hide Below, Locks, Named;
    var cells := |s.grid|;
    OneMoreNamed(d, cells, s.drawn, Locks(s.grid), Locks(s'.grid), r.drawn - s.drawn);
    forall m: nat | m < r.drawn - s.drawn
      ensures |Locks(s.grid) + Named(d, cells, s.drawn, m)| < |Locks(s.grid)| + k
    {
      if m == 0 {
        NoneNamed(d, cells, s.drawn, Locks(s.grid));
      } else {
        OneMoreNamed(d, cells, s.drawn, Locks(s.grid), Locks(s'.grid), m);
      }
    }
  }

  lemma NoneNamed(d: Draws, cells: int, p: nat, before: set<int>)
    requires cells > 0
    ensures before + Named(d, cells, p, 0) == before
  {}

  lemma {:induction false} PlacingCovers(d: Draws, s: Spot, k: nat)
    requires 0 < |s.grid| && Lively(d, |s.grid|) && |Locks(s.grid)| + k <= |s.grid| / 2
    ensures Covers(d, s, k, PlaceLocks(d, s, k))
    decreases k, if k > 0 then Wait(d, |s.grid|, Locks(s.grid), s.drawn) else 0
  {
    hide Lively, Below, Wait, Locks, Covers;
    if k == 0 {
      NothingCovers(d, s);
    } else {
      LivelyEscapes(d, |s.grid|, Locks(s.grid), s.drawn);
      var i := Below(d(s.drawn), |s.grid|);
      if s.grid[i] != LOCK {
        LockSetUpdate(s.grid, i);
        var s' := Spot(s.grid[i := LOCK], s.drawn + 1);
        PlacingCovers(d, s', k - 1);
        CoversOneMore(d, s, k, s', k - 1, PlaceLocks(d, s, k));
      } else {
        LockIsIn(s.grid, i);
        MissShortensWait(d, |s.grid|, Locks(s.grid), s.drawn);
        var s' := s.(drawn := s.drawn + 1);
        PlacingCovers(d, s', k);
        assert Locks(s.grid) == Locks(s.grid) + {i};
        CoversOneMore(d, s, k, s', k, PlaceLocks(d, s, k));
      }
    }
  }

  lemma NothingCovers(d: Draws, s: Spot)
    requires |s.grid| > 0
    ensures Covers(d, s, 0, s)
  {}

  /** The locks of a new board are the first `k` different cells that the stream names after
      the tiles. */
  lemma LocksAreTheFirstNamed(a: Arena, d: Draws, p: nat)
    requires CanGenerate(a, d)
    ensures var q := p + a.w * a.h; var r := Locked(a, d, p);
      && r.drawn >= q && Takes(d, a.w * a.h, q, a.vault.locks, r.drawn - q)
      && Locks(r.grid) == Named(d, a.w * a.h, q, r.drawn - q)
  {
    hide Lively, Below, Locks, Drawable, PlaceLocks;
    var f := Filled(a, d, p);
    FilledIsFull(a, d, p);
    PlacingCovers(d, f, a.vault.locks);
    PlacedLocks(d, f, a.vault.locks);
    var cells := a.w * a.h;
    forall m: nat | m <= Locked(a, d, p).drawn - f.drawn
      ensures Locks(f.grid) + Named(d, cells, f.drawn, m) == Named(d, cells, f.drawn, m)
    {}
  }

  /** The draws it takes, including those that name a cell again. */
  ghost function LockDraws(d: Draws, cells: int, p: nat, k: nat): (n: nat)
    requires cells > 0 && exists n: nat :: Takes(d, cells, p, k, n)
    ensures Takes(d, cells, p, k, n)
  {
    var n: nat :| Takes(d, cells, p, k, n);
    n
  }

  /** What setting up a vault draws from position `p`, with so many redraws. */
  ghost function OpeningDraws(a: Arena, d: Draws, p: nat, redraws: nat): int
    requires CanGenerate(a, d)
  {
    LocksAreTheFirstNamed(a, d, p);
    a.w * a.h + LockDraws(d, a.w * a.h, p + a.w * a.h, a.vault.locks) + redraws * (a.w * a.h - a.vault.locks)
  }

  /** Stream accounting of a new vault. */
  lemma OpenedDraws(a: Arena, d: Draws, p: nat, pct: int, extra: bool)
    requires CanGenerate(a, d)
    ensures var s := Opened(a, d, p, pct, extra); s.drawn == p + OpeningDraws(a, d, p, s.reshuffles)
  {
    hide Lively, Drawable, Rounds, HasMove, CountOf, PlaceLocks, ScaledObjectives, Round, Takes, Named;
    var f, cells := Filled(a, d, p), a.w * a.h;
    FilledIsFull(a, d, p);
    PlacedLocks(d, f, a.vault.locks);
    var spot := Locked(a, d, p);
    LockSetCount(spot.grid);
    RoundsLaws(a, d, spot, Opened(a, d, p, pct, extra).reshuffles);
    LocksAreTheFirstNamed(a, d, p);
    TakesIsUnique(d, cells, p + cells, a.vault.locks, LockDraws(d, cells, p + cells, a.vault.locks),
                  spot.drawn - (p + cells));
  }
}
