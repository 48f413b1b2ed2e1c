/** What a vault does to its board, as functions of the board and of a position in the
    stream of draws: generation, a move, a reshuffle (engine.go). */
module Play {
  import opened Words
  import opened Rng
  import opened Generators
  import opened Config
  import opened Board
  import opened Tiles
  import opened Gravity

  datatype VaultState = Playing | Cracked | Busted

  /** The fixed part of a vault in play; `bound` is what its engine divides an output by. */
  datatype Arena = Arena(w: int, h: int, vault: Vault, bound: int) {
    function Deck(): Deck {
      Tiles.Deck.Deck(vault.weights, bound)
    }
  }

  /** Vault `vaultIndex` of a configuration, on an engine. */
  function ArenaOf(engine: Engine, cfg: EventConfig, vaultIndex: nat): Arena
    requires vaultIndex < |cfg.vaults|
  {
    var vault := cfg.vaults[vaultIndex];
    Arena(cfg.w, cfg.h, vault, BoundOf(engine, vault.weights.Total()))
  }

  /** Everything about a vault that a move can change; `drawn` is the position of the
      shared generator in its stream. */
  datatype Snapshot = Snapshot(
    grid: seq<int>, objectives: Objectives, movesLeft: int, loot: int, state: VaultState,
    reshuffles: nat, drawn: nat)

  datatype MoveResult = MoveResult(
    tile: int, length: int, pct: int, loot: int, bonusMove: bool, unlocked: seq<int>,
    objectives: Objectives, state: VaultState)

  /** A board and a position in the stream. */
  datatype Spot = Spot(grid: seq<int>, drawn: nat)

  ghost predicate ArenaOk(a: Arena) {
    a.w > 0 && a.h > 0 && Drawable(a.Deck())
  }

  // ---- locks ----

  ghost function Locks(g: seq<int>): set<int> {
    set i | 0 <= i < |g| && g[i] == LOCK
  }

  ghost function NonLocks(g: seq<int>): (m: seq<bool>)
    ensures |m| == |g|
  {
    seq(|g|, i requires 0 <= i < |g| => g[i] != LOCK)
  }

  /** A lock next to the chain, horizontally or vertically. */
  ghost predicate Unlocks(g: seq<int>, w: int, h: int, path: seq<int>, i: int)
    requires w > 0 && 0 <= i < |g|
  {
    && g[i] == LOCK
    && ((i / w > 0 && i - w in path) || (i / w < h - 1 && i + w in path)
        || (i % w > 0 && i - 1 in path) || (i % w < w - 1 && i + 1 in path))
  }

  ghost function UnlockMarks(g: seq<int>, w: int, h: int, path: seq<int>): (m: seq<bool>)
    requires w > 0
    ensures |m| == |g|
  {
    seq(|g|, i requires 0 <= i < |g| => Unlocks(g, w, h, path, i))
  }

  /** The marked indices below `n`, in ascending order. */
  ghost function Listed(m: seq<bool>, n: nat): seq<int>
    requires n <= |m|
  {
    if n == 0 then [] else Listed(m, n - 1) + if m[n - 1] then [n - 1] else []
  }

  // ---- one move ----

  ghost function Cleared(g: seq<int>, path: seq<int>): (g': seq<int>)
    ensures |g'| == |g|
  {
    seq(|g|, i requires 0 <= i < |g| => if i in path then EMPTY else g[i])
  }

  ghost function AfterUnlock(a: Arena, d: Draws, s: Spot, path: seq<int>): (r: Spot)
    requires ArenaOk(a) && IsGrid(s.grid, a.w, a.h)
    ensures |r.grid| == |s.grid|
  {
    var m := UnlockMarks(s.grid, a.w, a.h, path);
    Spot(Redraw(s.grid, m, d, s.drawn, a.Deck()), s.drawn + Count(m))
  }

  ghost function AfterGravity(a: Arena, d: Draws, s: Spot): (r: Spot)
    requires ArenaOk(a) && IsGrid(s.grid, a.w, a.h)
    ensures |r.grid| == |s.grid|
  {
    Spot(Collapsed(s.grid, a.w, a.h, d, s.drawn, a.Deck()), s.drawn + GapsBefore(s.grid, a.w, a.h, a.w))
  }

  /** Unlock, remove the chain, let the rest fall and refill. */
  ghost function AfterChain(a: Arena, d: Draws, s: Spot, path: seq<int>): (r: Spot)
    requires ArenaOk(a) && IsGrid(s.grid, a.w, a.h)
    ensures |r.grid| == |s.grid|
  {
    var u := AfterUnlock(a, d, s, path);
    AfterGravity(a, d, u.(grid := Cleared(u.grid, path)))
  }

  /** One redraw of every cell that is not a lock. */
  ghost function Round(a: Arena, d: Draws, s: Spot): (r: Spot)
    requires ArenaOk(a)
    ensures |r.grid| == |s.grid|
  {
    var m := NonLocks(s.grid);
    Spot(Redraw(s.grid, m, d, s.drawn, a.Deck()), s.drawn + Count(m))
  }

  const MAX_ROUNDS := 100

  /** How many redraws a reshuffle makes: until a move exists, at most `left`. */
  ghost function Rounds(a: Arena, d: Draws, s: Spot, left: nat): (n: nat)
    requires ArenaOk(a)
    ensures n <= left
    decreases left
  {
    if left == 0 then 0
    else if HasMove(Round(a, d, s).grid, a.w) then 1
    else 1 + Rounds(a, d, Round(a, d, s), left - 1)
  }

  ghost function AfterRounds(a: Arena, d: Draws, s: Spot, n: nat): (r: Spot)
    requires ArenaOk(a)
    ensures |r.grid| == |s.grid|
    decreases n
  {
    if n == 0 then s else AfterRounds(a, d, Round(a, d, s), n - 1)
  }

  ghost function Reduced(o: Objectives, t: int, n: int): Objectives {
    if t == KEY then o.(key := if o.key - n > 0 then o.key - n else 0)
    else if t == LASER then o.(laser := if o.laser - n > 0 then o.laser - n else 0)
    else if t == CAMERA then o.(camera := if o.camera - n > 0 then o.camera - n else 0)
    else o
  }

  function ChainLoot(t: int, n: nat): int {
    Quotient(n * BaseLoot(t) * ChainPct(n), 100)
  }

  ghost function Decided(o: Objectives, movesLeft: int): VaultState {
    if AllDone(o) then Cracked else if movesLeft <= 0 then Busted else Playing
  }

  /** The vault after a legal chain. */
  ghost function Applied(a: Arena, d: Draws, s: Snapshot, path: seq<int>): Snapshot
    requires ArenaOk(a) && IsGrid(s.grid, a.w, a.h) && IsChain(s.grid, a.w, path)
  {
    var t := s.grid[path[0]];
    var spot := AfterChain(a, d, Spot(s.grid, s.drawn), path);
    var o := Reduced(s.objectives, t, |path|);
    var moves := s.movesLeft - if t == GUARD then 0 else 1;
    var state := Decided(o, moves);
    var rounds := if state == Playing && !HasMove(spot.grid, a.w) then Rounds(a, d, spot, MAX_ROUNDS) else 0;
    var last := AfterRounds(a, d, spot, rounds);
    Snapshot(last.grid, o, moves, s.loot + ChainLoot(t, |path|), state, s.reshuffles + rounds, last.drawn)
  }

  ghost function Report(a: Arena, d: Draws, s: Snapshot, path: seq<int>): MoveResult
    requires ArenaOk(a) && IsGrid(s.grid, a.w, a.h) && IsChain(s.grid, a.w, path)
  {
    var t := s.grid[path[0]];
    var m := UnlockMarks(s.grid, a.w, a.h, path);
    var s' := Applied(a, d, s, path);
    MoveResult(t, |path|, ChainPct(|path|), ChainLoot(t, |path|), t == GUARD, Listed(m, |m|), s'.objectives, s'.state)
  }

  // ---- generation ----

  /** Some later draw points to a cell outside `taken`. */
  ghost predicate Escapes(d: Draws, cells: int, taken: set<int>, p: nat)
    requires 0 < cells
  {
    exists q: nat :: Hits(d, cells, taken, p, q)
  }

  ghost predicate Hits(d: Draws, cells: int, taken: set<int>, p: nat, q: nat)
    requires 0 < cells
  {
    q >= p && Below(d(q), cells) !in taken
  }

  /** No set of fewer than half of the cells absorbs the stream for ever. */
  ghost predicate Lively(d: Draws, cells: int)
    requires 0 < cells
  {
    forall p: nat, taken: set<int> :: |taken| < cells / 2 ==> Escapes(d, cells, taken, p)
  }

  lemma LivelyEscapes(d: Draws, cells: int, taken: set<int>, p: nat)
    requires 0 < cells && Lively(d, cells) && |taken| < cells / 2
    ensures Escapes(d, cells, taken, p)
  {}

  ghost function WaitUpTo(d: Draws, cells: int, taken: set<int>, p: nat, q: nat): nat
    requires 0 < cells && Hits(d, cells, taken, p, q)
    decreases q - p
  {
    if Hits(d, cells, taken, p, p) then 0 else 1 + WaitUpTo(d, cells, taken, p + 1, q)
  }

  /** How many draws miss before the next one outside `taken`. */
  ghost function Wait(d: Draws, cells: int, taken: set<int>, p: nat): nat
    requires 0 < cells && Escapes(d, cells, taken, p)
  {
    var q: nat :| Hits(d, cells, taken, p, q);
    WaitUpTo(d, cells, taken, p, q)
  }

  lemma {:induction false} WaitIsUnique(d: Draws, cells: int, taken: set<int>, p: nat, q: nat, q': nat)
    requires 0 < cells && Hits(d, cells, taken, p, q) && Hits(d, cells, taken, p, q')
    ensures WaitUpTo(d, cells, taken, p, q) == WaitUpTo(d, cells, taken, p, q')
    decreases q - p
  {
    if !Hits(d, cells, taken, p, p) { WaitIsUnique(d, cells, taken, p + 1, q, q'); }
  }

  /** A miss shortens the wait by one. */
  lemma MissShortensWait(d: Draws, cells: int, taken: set<int>, p: nat)
    requires 0 < cells && Escapes(d, cells, taken, p) && Below(d(p), cells) in taken
    ensures Escapes(d, cells, taken, p + 1)
    ensures Wait(d, cells, taken, p + 1) < Wait(d, cells, taken, p)
  {
    hide Below;
    var q: nat :| Hits(d, cells, taken, p, q) && Wait(d, cells, taken, p) == WaitUpTo(d, cells, taken, p, q);
    assert Hits(d, cells, taken, p + 1, q);
    assert WaitUpTo(d, cells, taken, p, q) == 1 + WaitUpTo(d, cells, taken, p + 1, q);
    var q': nat :| Hits(d, cells, taken, p + 1, q') && Wait(d, cells, taken, p + 1) == WaitUpTo(d, cells, taken, p + 1,
                        q');
    WaitIsUnique(d, cells, taken, p + 1, q, q');
  }

  lemma LockSetUpdate(g: seq<int>, i: int)
    requires 0 <= i < |g| && g[i] != LOCK
    ensures Locks(g[i := LOCK]) == Locks(g) + {i} && i !in Locks(g)
    ensures |Locks(g[i := LOCK])| == |Locks(g)| + 1
  {}

  /** Locks go to the cells the stream points to, skipping cells that are locks already. */
  ghost function PlaceLocks(d: Draws, s: Spot, k: nat): (r: Spot)
    requires 0 < |s.grid| && Lively(d, |s.grid|)
    requires |Locks(s.grid)| + k <= |s.grid| / 2
    ensures |r.grid| == |s.grid|
    decreases k, if k > 0 then Wait(d, |s.grid|, Locks(s.grid), s.drawn) else 0
  {
    if k == 0 then s
    else
      var i := Below(d(s.drawn), |s.grid|);
      if s.grid[i] != LOCK then
        LockSetUpdate(s.grid, i);
        PlaceLocks(d, Spot(s.grid[i := LOCK], s.drawn + 1), k - 1)
      else
        MissShortensWait(d, |s.grid|, Locks(s.grid), s.drawn);
        PlaceLocks(d, s.(drawn := s.drawn + 1), k)
  }

  ghost predicate CanGenerate(a: Arena, d: Draws) {
    && ArenaOk(a)
    && a.w * a.h < MODULUS && 0 <= a.vault.locks < a.w * a.h / 2
    && a.w * a.h > 0 && Lively(d, a.w * a.h)
  }

  ghost function Filled(a: Arena, d: Draws, p: nat): (s: Spot)
    requires ArenaOk(a) && a.w * a.h > 0
    ensures IsGrid(s.grid, a.w, a.h) && Locks(s.grid) == {}
  {
    var g := Fresh(d, p, a.w * a.h, a.Deck());
    assert forall i :: 0 <= i < |g| ==> g[i] != LOCK;
    Spot(g, p + a.w * a.h)
  }

  ghost function Locked(a: Arena, d: Draws, p: nat): (s: Spot)
    requires CanGenerate(a, d)
    ensures IsGrid(s.grid, a.w, a.h)
  {
    PlaceLocks(d, Filled(a, d, p), a.vault.locks)
  }

  /** A vault that has just been set up from position `p` of the stream. */
  ghost function Opened(a: Arena, d: Draws, p: nat, pct: int, extraMoves: bool): Snapshot
    requires CanGenerate(a, d)
  {
    var spot := Locked(a, d, p);
    var rounds := if HasMove(spot.grid, a.w) then 0 else Rounds(a, d, spot, MAX_ROUNDS);
    var last := AfterRounds(a, d, spot, rounds);
    Snapshot(last.grid, ScaledObjectives(a.vault.objectives, pct),
             a.vault.moves + (if extraMoves then EXTRA_MOVES_BONUS else 0), 0, Playing, rounds, last.drawn)
  }
}
